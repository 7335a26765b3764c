# went front end, modelled in Dafny

`went` is a small scripting language whose repository keeps several
revisions of its front end side by side: four lexers, three parsers, two
S-expression printers, the runtime values and a tree-walking evaluator, the
error lists, a scope table, and the bracket tracker of the interactive
prompt. The revisions do not compile together, so each Go file is modelled
on its own terms, with its own token types, in a module of its own:

| module | Go file | form |
|---|---|---|
| `Runes` | helpers shared by every lexer | functions |
| `Strconv` | what the number constructors use from `strconv` | functions |
| `Tok` | lang/token/token.go | functions; the `List` deque is a class |
| `TokenErrors` | lang/token/errors.go | functions; `ErrorList` is a class |
| `RuntimeErrors`, `SyntaxErrors` | lang/runtime/errors.go, lang/parser/errors.go | functions |
| `ScanLexer`, `ScanProps` | lang/lexer/lexer.go | class `Lexer` proved against `ScanSpec` |
| `TokenLexer` | lang/token/lexer.go | class `Lexer` proved against per-state functions |
| `LangLexer` | lang/lexer.go | the same shape |
| `UtilsLexer`, `UtilsProps` | utils/lexer.go | the same shape |
| `AstParser`, `AstParserProps` | lang/parser/parser.go | class `Parser` proved against grammar functions |
| `LangParser`, `LangParserProps` | lang/parser.go | the same shape |
| `UtilsParser` | utils/parser.go | classes `TokenList` and `Parser` |
| `LangNode`, `UtilsNode` | lang/node.go, utils/node.go | functions |
| `WentType`, `WentTypeProps` | lang/wenttype.go | functions |
| `Interpreter`, `InterpreterProps` | lang/runtime/interpreter.go | function `Eval`; class `Interpreter` |
| `Printer`, `PrinterProps`, `AstPrinter` | lang/ast/printer.go, lang/ast/ast-printer.go | functions, and methods for the builder loops |
| `Repl` | cmd/repl.go (`collectBrackets` and the prompt state) | classes `BracketStack` and `PromptState` |
| `Semantic` | lang/semantic.go | classes `Scope` and `SymbolTable` |

**Lexers.** Each lexer is a class over `input: string` with the fields
the Go struct mutates: cursor, pending start, width, line (and column),
the previous token type, the bracket stack (a `seq<char>`) or the three
depth counters, and the tokens sent so far (`out`). For the three
state-function lexers the channel is that output sequence, and `run` is a
loop over an enumeration of the state functions. Each state function is
a method whose `ensures` ties what it sends, where it leaves the cursor
and which state it names to a pure function of the old state. A `Trace`
function runs those functions from `lexCode` to the end, and `Run` is
proved to send exactly the trace. The properties the lexers promise are
lemmas about those functions, and whole-run lemmas show that a halting run
ends with EOF or an error and sends EOF at most once, last:
- automatic semicolon insertion;
- bracket matching;
- the number syntax;
- identifiers and keywords;
- comments;
- strings;
- signed numbers and properties in utils/lexer.go.

The `*LineFree` (lang/lexer.go, utils/lexer.go) and `*StampFree`
(lang/token/lexer.go) lemmas are frame facts: a state sends the same tokens
from any line, apart from the lines stamped on them. They exist only to
split the proof that `Run` sends the trace into pieces the verifier handles
one state at a time, and a reader can skip them.

The pull-based `Scan` of lang/lexer/lexer.go is proved, call by call,
against `ScanSpec`.

**Parsers.** The lexer a parser reads is a token sequence ending in
EOF, read again and again past its end. In utils/parser.go it is the zero
token, which a closed channel gives. The grammar of each parser is a
family of pure functions over (tokens, index), one per precedence level
with a tail for each level's loop. The `Parser` classes keep the
lookahead buffer, the current token and the errors as fields, and their
methods are proved to follow the grammar functions. A panic is a failed
result carrying its message.

**Values and evaluation.** Runtime values are a datatype. Numbers are
exact reals. Equality, zero test, ordering and its converse are
functions, with lemmas for:
- symmetry and reflexivity of equality;
- lexicographic list order;
- `Gr` as the negation of `Sm`.

The evaluator is a function `Eval` over the trees of lang/parser/parser.go.
The `Interpreter` class records errors as it goes.

**Errors, printers, prompt and scopes.**
- The error list sorts by position and message, and its de-duplication is
  modelled in place with a write index.
- The printers are recursive functions, with the builder loop as a method.
- The prompt's bracket stack persists from line to line.
- Scopes are objects whose symbol map `Define` replaces.

## Model

| member | source | states |
|---|---|---|
| `Runes.At` | lang/token/lexer.go:86-93 | the rune `next` reads at a position: EOF exactly past the end of the input, otherwise the character there |
| `Runes.RunEnd` | lang/token/lexer.go:147-151 | where `acceptRun` stops: every rune before it is in the valid set and the rune at it is not, or the input has ended |
| `Runes.NatToString` | lang/token/token.go:24-27 | the decimal spelling `%d` gives a non-negative number: digits only, no leading zero, reading back as the number |
| `Runes.IntToString` | lang/token/token.go:196-205 | `strconv.Itoa`: the spelling of the magnitude, after a '-' exactly for negative numbers |
| `Runes.RuneU` | lang/token/lexer.go:297 | the `%#U` rendering of a rune in the lexers' messages: "U+", the hex code, then the rune between quotes |
| `Runes.Quote` | lang/token/token.go:69 | the `%q` rendering of a text: two quotes longer than the text |
| `Runes.CountOf` | lang/lexer.go:270 | `strings.Count` of a rune: never more than the text's length |
| `Runes.CountOfAbsent` | lang/lexer.go:270 | a rune that does not occur in the text is counted zero times |
| `Strconv.Int64Of` | utils/node.go:83-86 | `int64(f)` of an integral float within range is that same value and fits in 64 bits |
| `UtilsNode.NewNumber` | utils/node.go:60-93 | a number node always records its position, its text and a float value; it is an int exactly when `ParseInt` succeeds or the float is integral; it fails exactly when `ParseInt` fails and either `ParseFloat` fails or the text has no float mark, with "Integer overflow" where the float parse succeeded |
| `Tok.DecomposeNewPos` | lang/token/token.go:12-21 | unpacking a packed position gives back its line and column |
| `Tok.NewPosDecompose` | lang/token/token.go:12-21 | packing the unpacked line and column gives back the position |
| `Tok.PosStringInjective` | lang/token/token.go:24-27 | two positions that render as the same "line:col" are the same position |
| `Tok.AddOffset` | lang/token/token.go:32-41 | the line is kept; the column moves by the offset, is clamped to 0 when it would go negative, and keeps only its low 32 bits |
| `Tok.TypeString` | lang/token/token.go:196-205 | a type with a table entry spells as that entry, any other as "token(n)" |
| `Tok.TypeStringFallback` | lang/token/token.go:196-205 | the delimiters and every type outside the table spell as "token(n)" |
| `Tok.KeywordLookup` | lang/token/token.go:207-214 | a non-zero lookup result is a keyword type whose spelling is the word looked up |
| `Tok.KeywordLookupSpelling` | lang/token/token.go:207-214 | each keyword is found under its own spelling, so no two keywords share one |
| `Tok.InitKeywords` | lang/token/token.go:209-214 | the table `init` builds maps exactly the keyword spellings, each to its own type |
| `Tok.TokenStringKeepsValue` | lang/token/token.go:56-70 | apart from EOF and SEMICOLON, a token's rendering keeps its value recoverable |
| `Tok.List.constructor` | lang/token/token.go:218 | a new list is empty |
| `Tok.List.Empty` | lang/token/token.go:221 | true exactly when the list holds no token |
| `Tok.List.Push` | lang/token/token.go:224 | the tokens go on top, in the order given, and nothing else changes |
| `Tok.List.Pop` | lang/token/token.go:228-231 | returns the top and removes exactly it |
| `Tok.List.PeekTop` | lang/token/token.go:235-237 | returns exactly the top token, which the caller has checked is there, and leaves the list as it was |
| `Tok.List.Unshift` | lang/token/token.go:240-242 | the tokens go to the bottom, in the order given, before the old contents |
| `Tok.List.Shift` | lang/token/token.go:246-249 | returns the bottom and removes exactly it |
| `Tok.List.PeekBottom` | lang/token/token.go:253 | returns exactly the bottom token, which the caller has checked is there, and leaves the list as it was |
| `Tok.UnshiftThenShift` | lang/token/token.go:240-249 | unshifting t1..tn then shifting n times yields t1..tn in order and leaves the list as it was |
| `Tok.PushThenPop` | lang/token/token.go:224-231 | a pushed token is the next one popped, and the list is then as it was |
| `Tok.PeeksAgreeWithRemoval` | lang/token/token.go:246-253 | `PeekBottom` returns the token `Shift` then removes |
| `TokenErrors.NewGenericError` | lang/token/errors.go:79-81 | the error keeps the input name and the message as given, carries the given position and no type name |
| `TokenErrors.Position` | lang/token/errors.go:31-34 | the line and column are the two halves of the packed position |
| `TokenErrors.InputNamePos` | lang/token/errors.go:45-54 | "name:line:col", "line:col" without a name, the bare name without a valid position, and "" exactly when there is neither |
| `TokenErrors.StandardErrorMessageFormat` | lang/token/errors.go:60-72 | the message alone, "[type]: message", "place: message" or "[type]:place: message", by which of the type and the place are empty |
| `TokenErrors.ErrorString` | lang/token/errors.go:74-76 | the text ends with the message, and begins with "[type]:" when the error has a type name |
| `TokenErrors.StrLessIrreflexive` | lang/token/errors.go:100-117 | no input name sorts before itself |
| `TokenErrors.StrLessTransitive` | lang/token/errors.go:100-117 | the string order `Less` uses for names and messages is transitive |
| `TokenErrors.StrLessTotal` | lang/token/errors.go:100-117 | of two different strings one sorts before the other |
| `TokenErrors.LessIrreflexive` | lang/token/errors.go:100-117 | no error sorts before itself |
| `TokenErrors.LessTransitive` | lang/token/errors.go:100-117 | the order by name, then line, then column, then message is transitive |
| `TokenErrors.LessTotal` | lang/token/errors.go:100-117 | two errors neither of which sorts first agree on name, position and message |
| `TokenErrors.InsertAdds` | lang/token/errors.go:122 | one insertion step of the sort adds exactly the one error |
| `TokenErrors.InsertSorted` | lang/token/errors.go:122 | one insertion step of the sort keeps a sorted list sorted |
| `TokenErrors.SortErrorsSpec` | lang/token/errors.go:122 | the order `sort.Sort` leaves is sorted by `Less` and a permutation of the list |
| `TokenErrors.KeepStep` | lang/token/errors.go:131-137 | one turn of `RemoveMultiples`' loop: the entry is kept exactly when it has an input name or its line differs from the last kept line |
| `TokenErrors.WriteStep` | lang/token/errors.go:134-135 | writing a kept entry at the write index leaves the entries still to be read untouched |
| `TokenErrors.SubsequenceSorted` | lang/token/errors.go:125-138 | keeping some entries of a sorted list in order leaves it sorted and adds nothing |
| `TokenErrors.KeepFirstPerLineAsWrittenSpec` | lang/token/errors.go:125-138 | as written, the kept entries are a subsequence, every entry with an input name survives, and a kept entry without a name is on another line than the one kept before it |
| `TokenErrors.RemoveMultiplesSorted` | lang/token/errors.go:125-138 | what `RemoveMultiples` leaves is sorted and holds only entries of the list |
| `TokenErrors.AsWrittenKeepsDuplicateLine` | lang/token/errors.go:128-137 | two errors of one named input on the same line are both kept as written |
| `TokenErrors.KeepFirstPerLineSpec` | lang/token/errors.go:124-138 | the corrected loop keeps a subsequence in which no two neighbours share input name and line, every (name, line) pair of the input still occurs, and, over a list whose errors of one (name, line) stand together, each kept error is the first of its (name, line) |
| `TokenErrors.SortedGrouped` | lang/token/errors.go:100-116 | in a sorted list the errors of one (name, line) stand together, and those of input "" on line 0, the loop's starting point, come first |
| `TokenErrors.KeptCoverLines` | lang/token/errors.go:124-138 | for any list, the corrected loop keeps a subsequence in which no two neighbours share input name and line, and every (name, line) pair other than the remembered one still occurs |
| `TokenErrors.KeptAreFirst` | lang/token/errors.go:124-138 | over a list whose errors of one (name, line) stand together, each error the corrected loop keeps is the first of its (name, line) |
| `TokenErrors.GroupedTail` | lang/token/errors.go:131-137 | after one turn of the loop the rest of the list is still grouped, led by the (name, line) the loop now remembers |
| `TokenErrors.FirstOfLineTail` | lang/token/errors.go:131-137 | an error that is the first of its (name, line) in the rest of the list is the first of it in the whole list |
| `TokenErrors.RemoveMultiplesIntended` | lang/token/errors.go:124-138 | the corrected `RemoveMultiples` leaves a sorted list drawn from the input in which each error is the first of its (name, line) in the sorted order |
| `TokenErrors.IntendedDropsDuplicateLine` | lang/token/errors.go:124-138 | on the finding's two errors of input "f" on line 3 the corrected loop keeps only the first |
| `TokenErrors.ErrorList.constructor` | lang/token/errors.go:83 | a new list holds no error |
| `TokenErrors.ErrorList.Add` | lang/token/errors.go:87 | the error goes at the end, nothing else changes |
| `TokenErrors.ErrorList.Reset` | lang/token/errors.go:90 | no error remains |
| `TokenErrors.ErrorList.Sort` | lang/token/errors.go:122 | the list becomes a sorted permutation of itself |
| `TokenErrors.ErrorList.RemoveMultiples` | lang/token/errors.go:125-138 | the list becomes the as-written selection of its sorted order, computed in place with a write index |
| `TokenErrors.ErrorList.Error` | lang/token/errors.go:141-151 | "no errors", the one error's text, or the first error's text and "(and n more errors)" |
| `TokenErrors.ErrorList.Err` | lang/token/errors.go:155-160 | no error value exactly for an empty list, otherwise the list itself |
| `RuntimeErrors.NewRuntimeError` | lang/runtime/errors.go:12-17 | the error keeps the input name, position and message and is typed "RuntimeError" |
| `RuntimeErrors.RuntimeErrorText` | lang/runtime/errors.go:19-21 | the text is "[RuntimeError]: message" without a place, "[RuntimeError]:place: message" with one |
| `SyntaxErrors.NewSyntaxError` | lang/parser/errors.go:12-17 | the error keeps the input name, position and message and is typed "SyntaxError" |
| `SyntaxErrors.SyntaxErrorText` | lang/parser/errors.go:19-21 | the text is "[SyntaxError]: message" without a place, "[SyntaxError]:place: message" with one |
| `Printer.Size` | lang/ast/printer.go:9-16 | every tree has at least one node (the measure `Print`'s recursion descends by) |
| `Printer.SizeOfBound` | lang/ast/printer.go:43-53 | each child is no bigger than the children together, so printing a child descends |
| `Printer.Printed` | lang/ast/printer.go:9-41 | `Print` succeeds exactly on the trees without a name node (whose visit gives nil and panics the caller); a literal prints as its text, any other node as one bracketed group |
| `Printer.Bracketed` | lang/ast/printer.go:43-53 | `surroundBracket` succeeds exactly when no child holds a name node, and its text opens with "(" and closes with ")" |
| `Printer.Items` | lang/ast/printer.go:47-50 | the children's part of a bracket exists exactly when no child holds a name node |
| `Printer.Print` | lang/ast/printer.go:9-41 | the dispatch on the node's kind returns exactly the text `Printed` gives, or the panic |
| `Printer.SurroundBracket` | lang/ast/printer.go:43-53 | the builder loop returns exactly the text `Bracketed` gives, or the panic of the first child that has one |
| `PrinterProps.BracketsBalance` | lang/ast/printer.go:9-53 | with no bracket in any operator or literal, a tree prints with exactly one "(" and one ")" per non-literal node |
| `PrinterProps.BracketedCount` | lang/ast/printer.go:43-53 | a bracket adds exactly one "(" and one ")" around its children's |
| `PrinterProps.ItemsCount` | lang/ast/printer.go:47-50 | the children's part holds as many brackets as the children's prints together |
| `PrinterProps.CountOfConcat` | lang/ast/printer.go:44-52 | counting a rune over text built piece by piece adds the counts of the pieces |
| `AstPrinter.Embed` | lang/ast/ast-printer.go:7-27 | the trees of this printer are the trees of lang/ast/printer.go without a name node |
| `AstPrinter.Embeds` | lang/ast/ast-printer.go:29-39 | the children carried over one by one |
| `AstPrinter.Print` | lang/ast/ast-printer.go:7-27 | prints every tree, without panicking, exactly as lang/ast/printer.go prints the same tree |
| `AstPrinter.SurroundBracket` | lang/ast/ast-printer.go:29-39 | builds exactly the bracket lang/ast/printer.go builds for the same name and children |
| `WentType.IsZeroValue` | lang/wenttype.go:18 | a value is its zero value exactly when it equals the zero value of its own type: null always, 0, "", false, the empty list and the empty map |
| `WentType.Equals` | lang/wenttype.go:19 | two values are only ever equal when they have the same type |
| `WentType.Sm` | lang/wenttype.go:51-292 | null, booleans and maps refuse `<` with an `opError` naming the operator; numbers and strings compare exactly when the other side has their type; any two different types are an error |
| `WentType.Gr` | lang/wenttype.go:123-135 | `Gr` fails exactly when the `Sm` it negates fails, and its error then names `>` or `>=` |
| `WentTypeProps.EqualsReflexive` | lang/wenttype.go:45-374 | every value equals itself, lists and maps included |
| `WentTypeProps.EqualsSymmetric` | lang/wenttype.go:45-374 | `Equals` is symmetric, even though the map case only walks the receiver's keys |
| `WentTypeProps.EqualsTransitive` | lang/wenttype.go:45-374 | `Equals` is transitive |
| `WentTypeProps.SubsetSameSize` | lang/wenttype.go:365-372 | a map whose keys all lie among the other map's keys, with as many keys, has exactly the other's keys (why the map case may walk one side only) |
| `WentTypeProps.StrConverse` | lang/wenttype.go:158-175 | the string order is total: not `s <= t` is `t < s`, and not `s < t` is `t <= s` |
| `WentTypeProps.GrIsConverse` | lang/wenttype.go:66-67 | whenever `a > b` (or `a >= b`) is defined, `b < a` (or `b <= a`) is defined and has the same answer |
| `WentTypeProps.ListConverse` | lang/wenttype.go:269-292 | from any position of the lexicographic list walk, the negated reverse comparison with the other strictness agrees |
| `LangNode.NewNumber` | lang/node.go:466-500 | a number is always a float and keeps its token and text; an int parse wins; a float parse of float-looking text gives that float and an int only when it is integral; it fails exactly when the int parse fails and the float parse fails or the text has no '.', 'e' or 'E', with "Integer overflow" when only the mark was missing |
| `LangNode.NewBool` | lang/node.go:549-558 | only TRUE and FALSE tokens make a boolean, true for TRUE; anything else is "illegal bool syntax" with the quoted text |
| `LangNode.EqString` | lang/node.go:300-305 | "!=" exactly for the negated form, "==" otherwise |
| `LangNode.SmString` | lang/node.go:321-326 | "<=" exactly when it includes equality, "<" otherwise |
| `LangNode.GrString` | lang/node.go:342-347 | ">=" exactly when it includes equality, ">" otherwise |
| `Interpreter.IsTruthy` | lang/runtime/interpreter.go:133-142 | nil and false are the only falsy values |
| `Interpreter.OperandsMessage` | lang/runtime/interpreter.go:151-160 | "operandmust be a number" for one operand, "operands must be numbers " for more, as the format string spells them |
| `Interpreter.FloatOperands` | lang/runtime/interpreter.go:146-166 | the operands' float64s, in order, exactly when every operand is a number |
| `Interpreter.Numeric` | lang/runtime/interpreter.go:78-97 | comparisons give booleans, arithmetic gives a number, and only a division by zero leaves the exact reals |
| `Interpreter.ApplyBinary` | lang/runtime/interpreter.go:58-105 | `+` adds numbers, concatenates strings and refuses any other pair; the numeric operators fail exactly when an operand is not a number; each failure carries the operator's position and its message; `==`/`!=` never fail and are each other's negation; every other operator gives nil |
| `Interpreter.ApplyUnary` | lang/runtime/interpreter.go:110-126 | unary `-` and `+` fail exactly on a non-number and otherwise negate or keep it; `!` is the negated truthiness; every other operator gives nil |
| `Interpreter.Eval` | lang/runtime/interpreter.go:42-131 | a failure anywhere in the tree is a runtime error of this input |
| `Interpreter.Recorded` | lang/runtime/interpreter.go:21-24 | an evaluation records one error exactly when it fails |
| `Interpreter.Stringify` | lang/runtime/interpreter.go:168-173 | nil prints as "null", a string as itself, a boolean as "true" or "false" |
| `Interpreter.Interpreter.constructor` | lang/runtime/interpreter.go:16-18 | a new interpreter keeps its input name and holds no error |
| `Interpreter.Interpreter.Errorf` | lang/runtime/interpreter.go:21-24 | exactly one runtime error at the given position is appended |
| `Interpreter.Interpreter.CheckFloatOperands` | lang/runtime/interpreter.go:146-166 | the float64s of the operands, or no floats, the error flag and one error naming the operand count, exactly when an operand is not a number |
| `Interpreter.Interpreter.Evaluate` | lang/runtime/interpreter.go:42 | the tree's value is the one `Eval` defines, and exactly its failure is recorded |
| `Interpreter.Interpreter.VisitGrpExpr` | lang/runtime/interpreter.go:51-53 | a group has its inner expression's value and error |
| `Interpreter.Interpreter.VisitBasicLit` | lang/runtime/interpreter.go:129-131 | a literal's value is the one stored in it |
| `Interpreter.Interpreter.VisitUnExpr` | lang/runtime/interpreter.go:108-127 | the operand is evaluated, then the operator applied, with at most one recorded error |
| `Interpreter.Interpreter.VisitBinExpr` | lang/runtime/interpreter.go:55-106 | both operands are evaluated left to right, then the operator applied, with at most one recorded error |
| `InterpreterProps.FailureAtOperator` | lang/runtime/interpreter.go:55-127 | a failure is reported at the position of an operator of the tree, with one of the three operand messages |
| `InterpreterProps.NoShortCircuit` | lang/runtime/interpreter.go:56-57 | both operands are always evaluated: a failing right operand fails the whole expression, `&&` and `||` included |
| `InterpreterProps.DoubleNegation` | lang/runtime/interpreter.go:123-124 | `!!x` never fails and is the truthiness of `x` |
| `InterpreterProps.ComparisonConverse` | lang/runtime/interpreter.go:90-97 | `a > b` is `b < a` and `a >= b` is `b <= a`, errors included |
| `InterpreterProps.ParsedNeverNumber` | lang/runtime/interpreter.go:129-131 | a tree from the parser never evaluates to a number, since literals keep their text, so it never reaches a division by zero |
| `InterpreterProps.NumbersAddAsText` | lang/runtime/interpreter.go:65-69 | `1 + 2` evaluates to the string "12" |
| `AstParser.BinLevel` | lang/parser/parser.go:140-178 | every binary operator sits at one of the four precedence levels, or at none |
| `AstParser.Found` | lang/parser/parser.go:90-97 | the specific part of an "expected" message begins with ", found " |
| `AstParser.ExpectedError` | lang/parser/parser.go:88-100 | a syntax error of this input at the given position whose message is "expected <msg>" followed by what was found (exactly when the position is the lookahead's), all passed through `Sprintf` with no arguments: a found token without '%' comes through verbatim, and one with '%' comes through as `Sprintf` rewrites it |
| `AstParser.VerbIndex` | lang/parser/parser.go:35-38 | after a '%', the flags, width and precision of a directive end at or before the end of the format, never before where they start |
| `AstParser.Sprintf0Plain` | lang/parser/parser.go:35-38 | `Sprintf` with no arguments leaves a prefix without '%' as it is |
| `AstParser.PercentSpellings` | lang/token/token.go:164-170 | the `MOD` and `MODASSIGN` tokens are spelled "%" and "%=", so a found part naming them holds a '%' |
| `AstParser.QuoteVerb` | lang/parser/parser.go:35-38 | `Sprintf` with no arguments turns "%'" into "%!'(MISSING)" |
| `AstParser.EqualsVerb` | lang/parser/parser.go:35-38 | `Sprintf` with no arguments turns "%='" into "%!=(MISSING)'" |
| `AstParser.FoundMangled` | lang/parser/parser.go:88-100 | ", found '%'" reaches the message as ", found '%!'(MISSING)", and ", found '%='" as ", found '%!=(MISSING)'" |
| `AstParser.FoundPlain` | lang/parser/parser.go:90-97 | a found token whose spelling has no '%' adds none to the message |
| `AstParser.Level` | lang/parser/parser.go:140-178 | a parsed level consumes at least one token and stops before the end of the stream |
| `AstParser.Operand` | lang/parser/parser.go:141-174 | an operand of a level consumes at least one token and stops before the end |
| `AstParser.LevelTail` | lang/parser/parser.go:142-146 | the loop of a level never moves backwards and stops before the end |
| `AstParser.TailTurn` | lang/parser/parser.go:142-146 | one turn of a level's loop folds its operator and the next operand into a new left operand, or stops at the operand's failure |
| `AstParser.Unary` | lang/parser/parser.go:180-187 | a unary expression consumes at least one token and stops before the end |
| `AstParser.Primary` | lang/parser/parser.go:189-214 | a primary expression consumes at least one token and stops before the end |
| `AstParser.SyncFrom` | lang/parser/parser.go:110-121 | `sync` never moves backwards |
| `AstParser.Parser.constructor` | lang/parser/parser.go:19-29 | a new parser is at the start of its stream with no lookahead and no errors |
| `AstParser.Parser.Scan` | lang/parser/parser.go:41-49 | the lexer hands out the next token of its stream and nothing else changes; errors the lexer's handler would add are not modelled |
| `AstParser.Parser.Errorf` | lang/parser/parser.go:35-38 | exactly one syntax error is appended, its message the format passed through `Sprintf` with no arguments, and nothing else changes |
| `AstParser.Parser.Next` | lang/parser/parser.go:41-49 | the bottom of the lookahead, else a fresh token, becomes the current token; either way it is the token at the parser's position, which advances by one |
| `AstParser.Parser.Backup` | lang/parser/parser.go:55 | the tokens return to the bottom of the lookahead in order, and nothing else changes |
| `AstParser.Parser.Peek` | lang/parser/parser.go:59-65 | returns the token at the parser's position without moving it, fetching from the lexer only when the lookahead is empty |
| `AstParser.Parser.Check` | lang/parser/parser.go:80-86 | true exactly when the lookahead is not EOF and has the type asked for; nothing is consumed |
| `AstParser.Parser.Match` | lang/parser/parser.go:69-77 | consumes the lookahead, which becomes the current token, exactly when it has one of the types; otherwise nothing moves |
| `AstParser.Parser.ErrorExpected` | lang/parser/parser.go:88-100 | appends exactly the "expected" error `ExpectedError` builds for the lookahead, '%' rewriting included, and consumes nothing |
| `AstParser.Parser.Expect` | lang/parser/parser.go:102-108 | always consumes one token and returns it; succeeds exactly when it has the type, and otherwise appends "expected '<type>'" at that token |
| `AstParser.Parser.Sync` | lang/parser/parser.go:110-121 | moves to where `SyncFrom` says and records no error |
| `AstParser.Parser.Run` | lang/parser/parser.go:126-134 | the tree `Level` defines and no error, or, after its panic, no tree and every parse error recorded, including the one that stopped it |
| `AstParser.Parser.Expression` | lang/parser/parser.go:136-138 | reaches the outcome the equality level defines |
| `AstParser.Parser.EqualityExpr` | lang/parser/parser.go:140-148 | reaches the outcome `Level` defines at the equality level |
| `AstParser.Parser.ComparisonExpr` | lang/parser/parser.go:150-158 | reaches the outcome `Level` defines at the comparison level |
| `AstParser.Parser.AddExpr` | lang/parser/parser.go:160-168 | reaches the outcome `Level` defines at the additive level |
| `AstParser.Parser.MultExpr` | lang/parser/parser.go:170-178 | reaches the outcome `Level` defines at the multiplicative level |
| `AstParser.Parser.ArithUnExpr` | lang/parser/parser.go:180-187 | reaches the outcome `Unary` defines |
| `AstParser.Parser.PrimaryExpr` | lang/parser/parser.go:189-214 | reaches the outcome `Primary` defines |
| `AstParserProps.ShapedLoosens` | lang/parser/parser.go:140-178 | a tree shaped for one precedence level is also shaped for every looser one |
| `AstParserProps.LevelBuilt` | lang/parser/parser.go:140-178 | a parsed level's tree holds exactly the tokens it consumed, in order, and respects precedence |
| `AstParserProps.OperandBuilt` | lang/parser/parser.go:141-174 | an operand's tree holds exactly the tokens it consumed and is shaped one level tighter |
| `AstParserProps.TailBuilt` | lang/parser/parser.go:142-146 | the loop's tree holds the left operand's tokens followed by exactly the tokens it consumed, and keeps the level's shape |
| `AstParserProps.FoldTokens` | lang/parser/parser.go:145 | a node made by a turn of the loop holds the left tokens, the operator and the right tokens in stream order |
| `AstParserProps.GroupTokens` | lang/parser/parser.go:200-207 | a group holds its brackets around its expression's tokens |
| `AstParserProps.UnaryBuilt` | lang/parser/parser.go:180-187 | a unary expression's tree holds exactly the tokens it consumed |
| `AstParserProps.PrimaryBuilt` | lang/parser/parser.go:189-214 | a primary expression's tree holds exactly the tokens it consumed |
| `AstParserProps.UnaryIsLevel` | lang/parser/parser.go:140-178 | a unary expression followed by no operator of this or a tighter level is the whole level |
| `AstParserProps.LeftAssociative` | lang/parser/parser.go:160-168 | `8 - 3 - 2` parses as `(8 - 3) - 2` |
| `AstParserProps.Prefixed` | lang/parser/parser.go:180-187 | nesting under n prefix operators adds n tokens |
| `AstParserProps.SignsNestRight` | lang/parser/parser.go:180-187 | a run of signs before an operand gives one unary node per sign, the first outermost |
| `AstParserProps.NoExpression` | lang/parser/parser.go:209-212 | a token that cannot start an expression makes every level fail at it with "expected expression" and the found part as `Sprintf` leaves it, which is the found part itself when the token's spelling has no '%' |
| `AstParserProps.ExpressionMessage` | lang/parser/parser.go:88-100 | the "expected expression" error at a token reads "expected expression" and the found part as `Sprintf` leaves it, the found part itself when the token's spelling has no '%' |
| `AstParserProps.PercentFound` | lang/parser/parser.go:209-212 | at a `%` token the message reads "expected expression, found '%!'(MISSING)" |
| `AstParserProps.UnclosedGroup` | lang/parser/parser.go:200-206 | a group not closed by ")" fails at the token found instead with "expected ')'" and the found part as `Sprintf` leaves it, which is the found part itself when the token's spelling has no '%' |
| `AstParserProps.CloseMessage` | lang/parser/parser.go:88-100 | the "expected ')'" error at a token reads "expected ')'" and the found part as `Sprintf` leaves it, the found part itself when the token's spelling has no '%' |
| `AstParserProps.PercentAssignFound` | lang/parser/parser.go:200-206 | a group closed by `%=` instead fails with "expected ')', found '%!=(MISSING)'" |
| `AstParserProps.SyncFirstStop` | lang/parser/parser.go:110-121 | `sync` stops at the first EOF, semicolon or statement keyword from the current token on, consuming a semicolon and the token after it |
| `LangParser.Level` | lang/parser.go:198-266 | the logical, comparison, additive and multiplicative levels never move backwards and stop before the end of the stream |
| `LangParser.Sub` | lang/parser.go:199-260 | a level's operand never moves backwards and stops before the end |
| `LangParser.LevelTail` | lang/parser.go:200-203 | a level's loop never moves backwards and stops before the end |
| `LangParser.TailTurn` | lang/parser.go:200-203 | one turn of a level's loop consumes the operator, parses the next operand and folds both into a new left operand |
| `LangParser.Not` | lang/parser.go:208-216 | `parseNotExpr` never moves backwards and stops before the end |
| `LangParser.Unary` | lang/parser.go:269-277 | `parseUnExpr` never moves backwards and stops before the end |
| `LangParser.Primary` | lang/parser.go:284-286 | `parsePrimaryExpr` gives nil and reads nothing |
| `LangParser.Operand` | lang/parser.go:292-308 | a parsed operand never moves backwards and stops before the end |
| `LangParser.Element` | lang/parser.go:316-335 | an element never moves backwards and stops before the end |
| `LangParser.Elements` | lang/parser.go:315-321 | a collection's loop never moves backwards, stops before the end and only adds elements |
| `LangParser.ElementsTurn` | lang/parser.go:315-321 | one turn of the loop: an element, then a comma goes on past it, the closer ends the loop with the element added, anything else is the "missing comma" panic |
| `LangParser.ElementsComma` | lang/parser.go:317-320 | a turn that ends at a comma goes on past it with the element added |
| `LangParser.ElementsAfter` | lang/parser.go:315-321 | the loop's turn in the parser's terms: the element read, whether a comma follows, and the panic `nextComma` raises |
| `LangParser.Collection` | lang/parser.go:311-344 | a parsed collection consumes at least its opener and stops before the end |
| `LangParser.Opened` | lang/parser.go:313-343 | a collection past its opener consumes at least its closer |
| `LangParser.Gather` | lang/parser.go:314-322 | the elements never move backwards and stop before the end |
| `LangParser.CollectionEnd` | lang/parser.go:323-324 | the closer is consumed |
| `LangParser.CollectionFails` | lang/parser.go:312 | a wrong opener is the "unexpected … in Array/Dictionary" panic |
| `LangParser.CollectionOpens` | lang/parser.go:312 | the right opener is consumed and the collection goes on past it |
| `LangParser.Array` | lang/parser.go:311-325 | a parsed array is a list node that consumed at least its opener |
| `LangParser.Dict` | lang/parser.go:330-344 | a parsed dictionary, as written, is a dictionary node that consumed at least its opener |
| `LangParser.DictIntended` | lang/parser.go:330-344 | the corrected dictionary rule also gives a dictionary node that consumed at least its opener |
| `LangParser.Parser.constructor` | lang/parser.go:122-126 | a new parser has read nothing and has a nil root |
| `LangParser.Parser.Fetch` | lang/parser.go:29 | the lexer hands out the next token of its stream and nothing else changes |
| `LangParser.Parser.Next` | lang/parser.go:24-32 | for any lookahead: the bottom of the lookahead, else a fresh token, becomes the current token, and the upcoming tokens move up by one; where no backup is pending it is the token at the parser's position, which advances by one |
| `LangParser.Parser.Backup` | lang/parser.go:34-38 | the tokens go back to the bottom of the lookahead in order, so they are the next ones handed out, followed by those that were upcoming before; nothing else changes |
| `LangParser.Parser.Peek` | lang/parser.go:42-48 | for any lookahead: returns the next upcoming token and leaves the upcoming tokens as they were, fetching only when the lookahead is empty |
| `LangParser.Parser.Upcoming` | lang/parser.go:24-48 | the upcoming tokens are the lookahead, bottom first, then the lexer's |
| `LangParser.PeekThenNext` | lang/parser.go:24-48 | `peek` then `next` hand out the same token, the next upcoming one, and consume exactly one |
| `LangParser.BackupThenNext` | lang/parser.go:24-38 | `backup` of n tokens then n calls of `next` hand them out in order and leave the upcoming tokens as they were |
| `LangParser.Parser.Errorf` | lang/parser.go:53-57 | the root becomes nil and the panic's message is "line:col: SyntaxError - msg" at the current token |
| `LangParser.Parser.Unexpected` | lang/parser.go:84-86 | the panic "unexpected <token> in <context>", with a nil root |
| `LangParser.Parser.Expect` | lang/parser.go:63-69 | consumes one token and panics exactly when it lacks the type |
| `LangParser.Parser.ExpectRange` | lang/parser.go:72-81 | consumes one token and panics exactly when it has none of the types |
| `LangParser.Parser.NextComma` | lang/parser.go:89-103 | consumes nothing; true exactly on a comma; a panic "missing comma ','" (with " before newline" for a newline) on anything but a comma or the follow token |
| `LangParser.Parser.ParseExpr` | lang/parser.go:198-205 | reaches the node and position `Level` defines at the logical level, without a panic |
| `LangParser.Parser.ParseNotExpr` | lang/parser.go:208-216 | reaches the node and position `Not` defines |
| `LangParser.Parser.ParseComparisonExpr` | lang/parser.go:220-234 | reaches what `Level` defines at the comparison level |
| `LangParser.Parser.ParseAddExpr` | lang/parser.go:237-250 | reaches what `Level` defines at the additive level |
| `LangParser.Parser.ParseMultExpr` | lang/parser.go:253-266 | reaches what `Level` defines at the multiplicative level |
| `LangParser.Parser.ParseUnExpr` | lang/parser.go:269-277 | reaches what `Unary` defines |
| `LangParser.Parser.ParsePrimaryExpr` | lang/parser.go:284-286 | returns nil |
| `LangParser.Parser.ParseOperand` | lang/parser.go:292-308 | reaches the node, position or panic `Operand` defines |
| `LangParser.Parser.ParseElements` | lang/parser.go:315-321 | gathers exactly the elements `Elements` defines and stops where it says, or raises its panic with a nil root |
| `LangParser.Parser.GatherOne` | lang/parser.go:316-320 | one turn of the loop, which either goes on with the element added or ends the loop as `Elements` says |
| `LangParser.Parser.ReadElement` | lang/parser.go:316-317 | an element as `Element` defines it, then the `nextComma` answer and panic at the token after it |
| `LangParser.Parser.SkipComma` | lang/parser.go:320 | the comma is consumed and nothing else changes |
| `LangParser.Parser.ParseElement` | lang/parser.go:316 | reaches the element `Element` defines |
| `LangParser.Parser.ParseArray` | lang/parser.go:311-325 | reaches the node, position or panic `Array` defines |
| `LangParser.Parser.ParseDict` | lang/parser.go:330-344 | reaches the node, position or panic `Dict` defines, as written |
| `LangParser.Parser.ParseCollection` | lang/parser.go:311-344 | reaches what `Collection` defines |
| `LangParser.Parser.ParseOpened` | lang/parser.go:313-343 | reaches what `Opened` defines past the opener |
| `LangParser.Parser.ParseDictEl` | lang/parser.go:346-348 | returns nil |
| `LangParser.Parse` | lang/parser.go:131-145 | the parser comes back having read nothing, with a nil root and no error |
| `LangParserProps.LevelOnlyOperators` | lang/parser.go:198-286 | since `parsePrimaryExpr` reads nothing, an expression consumes only operators and prefixes and every operand of its tree is nil |
| `LangParserProps.SubOnlyOperators` | lang/parser.go:199-260 | a level's operand consumes only operators and prefixes and has only nil operands |
| `LangParserProps.TailOnlyOperators` | lang/parser.go:200-203 | a level's loop consumes only operator tokens and keeps every operand nil |
| `LangParserProps.NotOnlyOperators` | lang/parser.go:208-216 | `parseNotExpr` consumes only operators and prefixes |
| `LangParserProps.UnaryOnlyOperators` | lang/parser.go:269-277 | `parseUnExpr` consumes only sign prefixes |
| `LangParserProps.LevelAtInert` | lang/parser.go:198-286 | before a token that is neither a prefix nor an operator of the level, an expression reads nothing and is nil |
| `LangParserProps.OpLevel` | lang/parser.go:198-260 | the four binary levels (logical, comparison, additive, multiplicative) are the levels whose loops consume an operator |
| `LangParserProps.ShapedLoosens` | lang/parser.go:198-277 | a tree one rule can build a looser rule can build too, and it has only nil operands |
| `LangParserProps.LevelBuilt` | lang/parser.go:198-260 | for every input, a level's tree holds exactly the operators it consumed, in order, with tighter levels below looser ones, equal operators grouped to the left and prefixes nested to the right |
| `LangParserProps.SubBuilt` | lang/parser.go:199-260 | the same for a level's operand, shaped by the next tighter rule |
| `LangParserProps.TailBuilt` | lang/parser.go:200-203 | a level's loop adds the operators it consumes after the left operand's and keeps the level's shape |
| `LangParserProps.BinShaped` | lang/parser.go:200-203 | one turn of a level's loop keeps the level's shape |
| `LangParserProps.FoldTokens` | lang/parser.go:200-203 | the operators of the node one turn builds are the left operand's, then the ones that turn consumed |
| `LangParserProps.NotBuilt` | lang/parser.go:208-216 | `parseNotExpr` gives a tree of the operators it consumed, shaped by its rule |
| `LangParserProps.UnaryBuilt` | lang/parser.go:269-277 | `parseUnExpr` gives a tree of the sign operators it consumed, shaped by its rule |
| `LangParserProps.Prefixed` | lang/parser.go:208-277 | nesting under a run of prefixes puts them before the operand's operators |
| `LangParserProps.NotsNestRight` | lang/parser.go:208-216 | a run of n `!` gives n nested `!` nodes, the first outermost, over the comparison after the run |
| `LangParserProps.SignsNestRight` | lang/parser.go:269-277 | a run of n signs gives n nested sign nodes, the first outermost, over a nil operand |
| `LangParserProps.LogicalLeftFold` | lang/parser.go:198-205 | worked example: `a \|\| b && c` over nil operands folds to the left |
| `LangParserProps.NotNests` | lang/parser.go:208-216 | worked example: `! !` nests to the right |
| `LangParserProps.OperandExamples` | lang/parser.go:292-308 | a literal is an operand; `()` is nil, its parentheses consumed |
| `LangParserProps.ArrayOfLiteral` | lang/parser.go:311-325 | `[1]` is refused with "missing comma ',' in Array", since the element rule leaves the literal unread |
| `LangParserProps.Nils` | lang/parser.go:316 | n elements, each nil |
| `LangParserProps.ElementsOverCommas` | lang/parser.go:315-340 | over a run of commas the loop gathers one nil element per comma, plus one more at the closer when the loop does not test for that closer |
| `LangParserProps.ElementAtComma` | lang/parser.go:315-340 | at a comma the loop gathers one nil element and goes on past it |
| `LangParserProps.NilElement` | lang/parser.go:316-335 | before an inert token either element rule gives nil and reads nothing |
| `LangParserProps.ElementsAtCloser` | lang/parser.go:315-340 | at the closer the loop stops when it tests for it, and otherwise gathers one more nil element first |
| `LangParserProps.NilsCons` | lang/parser.go:316 | one nil element followed by m more is m + 1 nil elements |
| `LangParserProps.ArrayOfCommas` | lang/parser.go:311-325 | `[` then n commas then `]` is a list of n nil elements |
| `LangParserProps.DictOfCommasAsWritten` | lang/parser.go:330-344 | as written, `{` then n commas then `}` is a dictionary of n + 1 nil elements, two for `{,}` |
| `LangParserProps.DictOfCommasIntended` | lang/parser.go:330-344 | with the loop testing for `}`, the same input is a dictionary of n nil elements, as for an array |
| `UtilsParser.TokenList.constructor` | utils/parser.go:58 | a new lookahead list is empty |
| `UtilsParser.TokenList.Empty` | utils/parser.go:12-14 | true exactly when the list holds no token |
| `UtilsParser.TokenList.Push` | utils/parser.go:17-19 | the tokens go on top in the order given, and nothing else changes |
| `UtilsParser.TokenList.Pop` | utils/parser.go:23-26 | returns the top and removes exactly it |
| `UtilsParser.TokenList.PeekTop` | utils/parser.go:30-32 | returns exactly the top token, which the caller has checked is there, and leaves the list as it was |
| `UtilsParser.TokenList.Unshift` | utils/parser.go:35-37 | the tokens go to the bottom in the order given, before the old contents |
| `UtilsParser.TokenList.Shift` | utils/parser.go:41-44 | returns the bottom and removes exactly it |
| `UtilsParser.TokenList.PeekBottom` | utils/parser.go:48-50 | returns exactly the bottom token, which the caller has checked is there, and leaves the list as it was |
| `UtilsParser.UnshiftThenShift` | utils/parser.go:35-44 | unshifting t1..tn then shifting n times yields t1..tn in order and leaves the list as it was |
| `UtilsParser.PushThenPop` | utils/parser.go:17-26 | pushing t1..tn then popping n times yields them in reverse and leaves the list as it was |
| `UtilsParser.PeeksAgreeWithRemoval` | utils/parser.go:30-50 | `peekBottom` returns what `shift` removes and `peekTop` what `pop` removes |
| `UtilsParser.Received` | utils/parser.go:68 | a receive yields the lexer's next token, and the zero token once the channel is closed |
| `UtilsParser.SyntaxMessageParts` | utils/parser.go:94 | the message is "Syntax Error: ", the input's name, ':', the line, then the message given |
| `UtilsParser.Parser.constructor` | utils/parser.go:120-123 | a new parser has the lexer's name and input, an empty lookahead, a nil root, and has received nothing |
| `UtilsParser.Parser.Upcoming` | utils/parser.go:62-87 | the tokens the parser will be handed start with the lookahead, bottom first |
| `UtilsParser.Parser.Next` | utils/parser.go:63-69 | hands out the first upcoming token and moves every later one up by one, from the lookahead when it is not empty and from the lexer otherwise |
| `UtilsParser.Parser.Backup` | utils/parser.go:75-77 | the tokens become the first upcoming ones, in the order given, ahead of what was upcoming |
| `UtilsParser.Parser.Peek` | utils/parser.go:81-87 | returns the first upcoming token and leaves every upcoming token in place, receiving from the lexer exactly when the lookahead is empty |
| `UtilsParser.Parser.Errorf` | utils/parser.go:92-96 | the root becomes nil; the panic names the line of the bottom lookahead token, and with an empty lookahead the indexing itself fails |
| `UtilsParser.Parser.Error` | utils/parser.go:99-101 | `errorf` with the error's text, with the same outcomes |
| `UtilsParser.Parser.StopParse` | utils/parser.go:125-127 | the lexer is dropped and nothing else changes |
| `UtilsParser.PeekThenNext` | utils/parser.go:63-87 | `peek` then `next` hand out the same token and together consume exactly one |
| `UtilsParser.BackupThenNext` | utils/parser.go:63-77 | backing up t1..tn then n calls of `next` hand out t1..tn in order and leave the upcoming tokens as they were |
| `UtilsParser.Parse` | utils/parser.go:130-140 | the parser comes back with a nil root, no error, nothing received and the lexer dropped |
| `Repl.Collect` | cmd/repl.go:56-76 | the line's end status is normal exactly when the stack is empty and no mismatch stopped the scan, open exactly when brackets stay open |
| `Repl.CollectKeepsOpeners` | cmd/repl.go:59-66 | only openers are ever on the stack, so the lookup of a popped entry always succeeds |
| `Repl.CollectConcat` | cmd/repl.go:56-76 | reading a line in two parts is reading it whole, unless the first part already fails; so a later line closes what an earlier one left open |
| `Repl.BracketsOnly` | cmd/repl.go:58-61 | the bracket runes of a line, which is no longer than the line |
| `Repl.CollectIgnoresOthers` | cmd/repl.go:57-71 | runes other than brackets change neither the stack nor the status |
| `Repl.CloserOf` | cmd/repl.go:21-25 | each opener has one matching closer in the bracket table |
| `Repl.CollectOpener` | cmd/repl.go:59-60 | an opener is pushed and the scan goes on |
| `Repl.CollectCloser` | cmd/repl.go:61-69 | the matching closer of the top opener pops it and the scan goes on |
| `Repl.NestedRestores` | cmd/repl.go:56-76 | a balanced line never fails and leaves the stack as it found it, so from an empty stack it is normal |
| `Repl.WrapRestores` | cmd/repl.go:59-69 | an opener, a middle that restores the stack, its matching closer and a rest that restores the stack together restore it |
| `Repl.MismatchPops` | cmd/repl.go:66-68 | a closer that does not match the top opener fails the line at once, having popped that opener |
| `Repl.BracketStack.constructor` | cmd/repl.go:28 | a new stack is empty |
| `Repl.BracketStack.Empty` | cmd/repl.go:30 | true exactly when the stack holds nothing |
| `Repl.BracketStack.Push` | cmd/repl.go:33 | the bracket goes on top and nothing else changes |
| `Repl.BracketStack.Pop` | cmd/repl.go:37-40 | returns the top and removes exactly it |
| `Repl.BracketStack.Peek` | cmd/repl.go:44 | returns an entry of the stack, the top one |
| `Repl.BracketStack.CollectBrackets` | cmd/repl.go:56-76 | the status returned and the stack left are exactly what `Collect` gives for the old stack and the line |
| `Repl.PushThenPop` | cmd/repl.go:33-44 | a pushed bracket is what `peek` shows and `pop` removes, and the stack is then as it was |
| `Repl.PromptState.constructor` | cmd/repl.go:10-19 | the prompt starts with no live prefix, an empty stack and an empty query |
| `Repl.PromptState.Execute` | cmd/repl.go:78-97 | the line joins the query; while brackets stay open the continuation prefix is shown and nothing runs; otherwise the whole query is run and cleared, the prefix switched off, and after a mismatch the stack emptied |
| `Repl.PromptState.RunOnce` | cmd/repl.go:110-117 | the live prefix is switched off and set to the line, and the query is handed to the interpreter |
| `Semantic.SetScope` | lang/semantic.go:21 | the receiver is a copy, so the caller's symbol keeps its name and scope |
| `Semantic.DefaultTypesByName` | lang/semantic.go:29-45 | the six built-in types, each filed under its own name with no scope |
| `Semantic.Scope.Global` | lang/semantic.go:86-88 | a global scope has no parent and starts without symbols |
| `Semantic.Scope.Local` | lang/semantic.go:94-96 | a local scope has the given parent and starts without symbols |
| `Semantic.Scope.ParentScope` | lang/semantic.go:65-67 | the scope's parent |
| `Semantic.Scope.Define` | lang/semantic.go:69-72 | the symbol is filed under its name, replacing any symbol of that name, and nothing else changes |
| `Semantic.Scope.Resolve` | lang/semantic.go:74-80 | the symbol filed under the name in this scope exactly when there is one; the parent is never consulted |
| `Semantic.DefineThenResolve` | lang/semantic.go:69-80 | a defined symbol resolves under its name, other names resolve as before, and a later definition of the same name replaces it |
| `Semantic.LocalDoesNotInherit` | lang/semantic.go:74-96 | a local scope does not find what its parent defines, while the parent does |
| `Semantic.SymbolTable.constructor` | lang/semantic.go:102-106 | a new table's global scope has no parent and holds exactly the built-in types |
| `Semantic.SymbolTable.InitTypeSystem` | lang/semantic.go:109-113 | every built-in type is defined in the global scope, whatever order the map is ranged in |
| `ScanLexer.KeywordKind` | lang/lexer/lexer.go:431-432 | a keyword found for a word is a type in the keyword range whose spelling is that word |
| `ScanLexer.KeywordTableComplete` | lang/lexer/lexer.go:431-432 | every keyword type is found under its own spelling |
| `ScanLexer.WordKind` | lang/lexer/lexer.go:430-436 | a word is its keyword's type when it is a keyword, NAME otherwise |
| `ScanLexer.DigitValueOf` | lang/lexer/lexer.go:517-527 | at most 16; below 10 exactly for a decimal digit and below 8 exactly for an octal one |
| `ScanLexer.DigitsEnd` | lang/lexer/lexer.go:358-362 | `scanSignificand` stops at the first rune that is not a digit of the base, having passed only such digits |
| `ScanLexer.WordEnd` | lang/lexer/lexer.go:423-428 | `lexIdentifier` stops at the first rune that is neither letter nor digit, having passed only such runes |
| `ScanLexer.IndexFrom` | lang/lexer/lexer.go:479 | the first index at or after the cursor holding the rune, or none when no later index holds it |
| `ScanLexer.LineCommentEnd` | lang/lexer/lexer.go:478-482 | a line comment ends just past its first line break, or at the end of input, with no line break inside |
| `ScanLexer.BlockCommentEnd` | lang/lexer/lexer.go:487-500 | a block comment ends just past a star-slash, or at the end of input |
| `ScanLexer.DotPart` | lang/lexer/lexer.go:401-409 | the optional fraction never moves backwards |
| `ScanLexer.ExponentPart` | lang/lexer/lexer.go:410-418 | the optional exponent never moves backwards |
| `ScanLexer.Fraction` | lang/lexer/lexer.go:400-419 | the FRACTION part never moves backwards |
| `ScanLexer.HexNumber` | lang/lexer/lexer.go:376-382 | a hexadecimal number consumes at least its "0x" |
| `ScanLexer.OctalNumber` | lang/lexer/lexer.go:383-396 | a number with a leading zero consumes at least that zero |
| `ScanLexer.OctalDigits` | lang/lexer/lexer.go:384-389 | the octal digits consume at least the leading zero and never make a float |
| `ScanLexer.NumberScan` | lang/lexer/lexer.go:366-420 | a number consumes at least its first rune and is INT or FLOAT |
| `ScanLexer.DecimalRunHasNoMark` | lang/lexer/lexer.go:399 | a run of decimal digits holds no '.', 'e' or 'E' |
| `ScanLexer.FractionKind` | lang/lexer/lexer.go:400-419 | FRACTION yields FLOAT exactly when it consumed a '.' or an exponent marker |
| `ScanLexer.NumberKind` | lang/lexer/lexer.go:366-420 | a number is FLOAT exactly when it is not hexadecimal and a '.' or exponent marker was consumed |
| `ScanLexer.HexWithoutDigits` | lang/lexer/lexer.go:379-382 | "0x" with no hexadecimal digit records exactly "illegal hexadecimal number" |
| `ScanLexer.OctalWithBadDigit` | lang/lexer/lexer.go:385-389 | an octal run that reaches an 8 or a 9 first records "illegal octal number" over the decimal run |
| `ScanLexer.TrailingDecimalPoint` | lang/lexer/lexer.go:401-407 | a '.' with no digit after it records the trailing decimal point error first, and the number is FLOAT |
| `ScanLexer.ExponentWithoutDigits` | lang/lexer/lexer.go:410-417 | an exponent marker with neither sign nor digit after it records exactly the exponent error, and the number is FLOAT |
| `ScanLexer.QuoteScan` | lang/lexer/lexer.go:310-325 | a closed quoted string ends at the closing quote |
| `ScanLexer.Copies` | lang/lexer/lexer.go:315 | n copies of a message, one per escaped line break |
| `ScanLexer.QuoteScanStep` | lang/lexer/lexer.go:312-324 | an escape skips two runes and counts an escaped line break; a backslash at the end never closes; the quote closes; any other rune is skipped |
| `ScanLexer.ScanSpec` | lang/lexer/lexer.go:171-294 | one `Scan` never moves backwards |
| `ScanLexer.AfterBlanks` | lang/lexer/lexer.go:175-292 | after the blanks, one token never moves backwards |
| `ScanLexer.TokenAt` | lang/lexer/lexer.go:176-291 | a token starting at a rune consumes at least that rune |
| `ScanLexer.PunctSpec` | lang/lexer/lexer.go:195-249 | a string, separator or bracket token consumes at least its first rune |
| `ScanLexer.OperatorSpec` | lang/lexer/lexer.go:250-291 | an operator or illegal token consumes at least its first rune |
| `ScanLexer.Lexer.constructor` | lang/lexer/lexer.go:20-29 | a new lexer is at line 1, column 0, with nothing read, no errors and an empty bracket stack |
| `ScanLexer.Lexer.Next` | lang/lexer/lexer.go:77-94 | reads the rune under the cursor; at the end nothing moves; a line break moves to the next line at column 1; any other rune moves one column on, remembering the old column |
| `ScanLexer.Lexer.Peek` | lang/lexer/lexer.go:97-103 | the rune under the cursor, the end exactly past the input |
| `ScanLexer.Lexer.Backup` | lang/lexer/lexer.go:106-112 | the cursor moves back by the width of the last rune, the column becomes the remembered one, and a line break un-read moves back a line |
| `ScanLexer.Lexer.NextToken` | lang/lexer/lexer.go:116-125 | the pending text becomes a token of the type at the current line and column, and becomes the previous type; nothing else changes |
| `ScanLexer.Lexer.Ignore` | lang/lexer/lexer.go:128 | the pending text is dropped and nothing else changes |
| `ScanLexer.Lexer.Accept` | lang/lexer/lexer.go:131-137 | consumes the next rune exactly when it is one of the valid ones |
| `ScanLexer.Lexer.AcceptRun` | lang/lexer/lexer.go:140-144 | consumes exactly the longest run of valid runes |
| `ScanLexer.Lexer.Errorf` | lang/lexer/lexer.go:146-151 | counts the error, and reports it at the current position exactly when a handler is installed; the cursor does not move |
| `ScanLexer.Lexer.SkipWhitespace` | lang/lexer/lexer.go:439-444 | skips exactly the run of blanks and drops it |
| `ScanLexer.Lexer.ScanSignificand` | lang/lexer/lexer.go:358-362 | consumes exactly the digits of the base |
| `ScanLexer.Lexer.LexIdentifier` | lang/lexer/lexer.go:423-437 | emits the whole word as its keyword type or NAME, recording no error |
| `ScanLexer.Lexer.ScanDot` | lang/lexer/lexer.go:401-409 | carries out `DotPart`: where it ends, whether it makes a float and the errors it records |
| `ScanLexer.Lexer.ScanExponent` | lang/lexer/lexer.go:410-418 | carries out `ExponentPart` |
| `ScanLexer.Lexer.LexFraction` | lang/lexer/lexer.go:400-419 | emits the token `Fraction` defines and records its errors |
| `ScanLexer.Lexer.LexHex` | lang/lexer/lexer.go:376-382 | emits the token `HexNumber` defines and records its errors |
| `ScanLexer.Lexer.ScanOctalDigits` | lang/lexer/lexer.go:384-389 | carries out `OctalDigits` |
| `ScanLexer.Lexer.LexOctal` | lang/lexer/lexer.go:383-396 | emits the token `OctalNumber` defines and records its errors |
| `ScanLexer.Lexer.LexNumber` | lang/lexer/lexer.go:366-420 | emits the token `NumberScan` defines and records its errors |
| `ScanLexer.Lexer.QuoteRound` | lang/lexer/lexer.go:311-324 | one round of the quoted-string loop, agreeing with `QuoteScan`: it moves on, stops on the closing quote, or finds the end of input |
| `ScanLexer.Lexer.LexQuotedString` | lang/lexer/lexer.go:298-330 | produces the string token, errors and bracket stack the quoted-string rule defines, or spins at the end of input |
| `ScanLexer.Lexer.LexRawString` | lang/lexer/lexer.go:333-355 | produces what the raw-string rule defines; at the end of input the error is reported at the opening quote and the loop spins |
| `ScanLexer.Lexer.SkipNewlines` | lang/lexer/lexer.go:451-475 | skips the run of line breaks, and keeps one as a pending semicolon exactly when the previous token ends a statement |
| `ScanLexer.Lexer.SkipSingleLineComment` | lang/lexer/lexer.go:478-482 | skips to `LineCommentEnd` and drops the comment |
| `ScanLexer.Lexer.SkipMultilineComment` | lang/lexer/lexer.go:487-500 | skips to `BlockCommentEnd` and drops the comment |
| `ScanLexer.Lexer.Scan2` | lang/lexer/lexer.go:155-161 | the one- or two-rune token `scan2` defines |
| `ScanLexer.Lexer.CloseBracket` | lang/lexer/lexer.go:220-236 | ')' and ']' pop the stack, report an unexpected right bracket on an empty stack or a mismatch, and emit the closer |
| `ScanLexer.Lexer.CloseCurly` | lang/lexer/lexer.go:240-249 | '}' reports on an empty stack or a mismatch, and otherwise emits a semicolon first unless the previous token was one |
| `ScanLexer.Lexer.ScanLogical` | lang/lexer/lexer.go:250-261 | '\|' and '&' report an unexpected token unless doubled, and always emit the logical operator over two runes |
| `ScanLexer.Lexer.ScanOperator` | lang/lexer/lexer.go:262-291 | produces the operator or illegal token `OperatorSpec` defines |
| `ScanLexer.Lexer.Single1` | lang/lexer/lexer.go:206-239 | a one-rune token, pushing the opener when there is one |
| `ScanLexer.Lexer.ScanPunct` | lang/lexer/lexer.go:195-249 | produces what `PunctSpec` defines |
| `ScanLexer.Lexer.Scan` | lang/lexer/lexer.go:171-294 | produces exactly the token, errors, cursor and bracket stack `ScanSpec` defines, or spins where the source loops forever |
| `ScanLexer.Lexer.ScanToken` | lang/lexer/lexer.go:175-292 | produces what `AfterBlanks` defines |
| `ScanLexer.Lexer.ScanEof` | lang/lexer/lexer.go:181-186 | reports the innermost bracket left open, if any, and emits EOF |
| `ScanLexer.Lexer.ScanNewlines` | lang/lexer/lexer.go:187-193 | emits a semicolon for the line break, or scans again, as `TokenAt` defines |
| `ScanLexer.Lexer.ScanComment` | lang/lexer/lexer.go:278-288 | skips the comment and scans again, as `TokenAt` defines |
| `ScanLexer.CopiesAppend` | lang/lexer/lexer.go:315 | k copies then e copies are k + e copies |
| `ScanLexer.ShiftedTwice` | lang/lexer/lexer.go:313-316 | counting escaped line breaks in two steps adds the counts |
| `ScanProps.ScanRun` | lang/lexer/lexer.go:171-294 | at most n successive scans, each from where the previous one stopped |
| `ScanProps.ExhaustedInput` | lang/lexer/lexer.go:181-186 | at the end of input every scan is an empty EOF token; the first ones report each bracket left open, innermost first, and later ones report nothing |
| `ScanProps.NoInsertedSemicolon` | lang/lexer/lexer.go:463-474 | after a token that does not end a statement no scan yields the semicolon a line break would insert |
| `ScanProps.PunctSemicolon` | lang/lexer/lexer.go:215-249 | the punctuation cases give a SEMICOLON only for ';' or '}', spelled with that one rune |
| `ScanProps.NewlineRun` | lang/lexer/lexer.go:187-193 | a run of line breaks is one semicolon spelled "\n" exactly when the previous token ends a statement; otherwise it is skipped and the scan resumes after it |
| `ScanProps.RoundOrSquareCloser` | lang/lexer/lexer.go:220-236 | ')' and ']' always yield their own type over one rune and pop a non-empty stack; exactly one error when the stack was empty or the opener does not match, none otherwise |
| `ScanProps.CurlyCloser` | lang/lexer/lexer.go:240-249 | '}' yields a semicolon spelled "}" exactly when it closes a '{' after a token other than a semicolon, and RCURLY otherwise, with one error exactly on an empty stack or a mismatch |
| `ScanProps.BraceBlockAsWritten` | lang/lexer/lexer.go:240-249 | over "{x}" the scans give LCURLY, NAME, a SEMICOLON spelled "}" that consumes the brace, then EOF: the block never gets its RCURLY |
| `ScanProps.CurlyIntendedSpec` | lang/lexer/lexer.go:240-249 | under the corrected rule every '}' gives exactly one RCURLY, spelled "}", as its last token, with the source's stack and errors, preceded by a SEMICOLON ";" exactly where the source sends its SEMICOLON |
| `ScanProps.BraceBlockIntended` | lang/lexer/lexer_test.go:188-193 | on "{x}" the corrected rule gives SEMICOLON ";" and then RCURLY "}" at the brace, the pair the brace test case lists |
| `ScanProps.Scan2Operator` | lang/lexer/lexer.go:155-161 | an operator rune followed by '=' is the two-rune type, otherwise the one-rune type; a '/' that opens a comment is not an operator |
| `ScanProps.OperatorAt` | lang/lexer/lexer.go:250-289 | a scan that meets '\|', '&', an arithmetic, comparison or assignment rune, or a '/' that opens no comment, is the operator case's |
| `ScanProps.LogicalOperator` | lang/lexer/lexer.go:250-261 | a lone '\|' or '&' still yields the logical operator and consumes the rune after it, recording one error; a doubled one records none |
| `ScanProps.LineComment` | lang/lexer/lexer.go:278-288 | a line comment is skipped through its line break, which therefore inserts no semicolon |
| `ScanProps.BlockCommentToEnd` | lang/lexer/lexer.go:487-500 | with no star-slash after the opener, a block comment runs to the end of input |
| `ScanProps.BlockComment` | lang/lexer/lexer.go:278-288 | a block comment is skipped to just past its star-slash; an unclosed one silently runs to the end, where the scan is EOF with at most an unclosed-bracket error |
| `ScanProps.DecimalLiterals` | lang/lexer/lexer_test.go:162-164 | "123" is INT, ".345" and "1.234" are FLOAT, with no errors |
| `ScanProps.HexLiteral` | lang/lexer/lexer_test.go:162-164 | "0x1237A" is INT with no errors |
| `ScanProps.OctalLiteral` | lang/lexer/lexer_test.go:162-165 | "012374" is INT with no errors |
| `TokenLexer.NumberSyntax` | lang/token/lexer.go:174-194 | `scanNumber` never moves backwards |
| `TokenLexer.MantissaEnd` | lang/token/lexer.go:177-181 | the digits and the optional fraction never move backwards |
| `TokenLexer.ExponentEnd` | lang/token/lexer.go:183-186 | the optional exponent never moves backwards |
| `TokenLexer.StarSlashFrom` | lang/token/lexer.go:528 | `strings.Index` of "*/": the first star-slash pair at or after the cursor, or none when there is no such pair |
| `TokenLexer.CodeSpec` | lang/token/lexer.go:221-300 | `lexCode` always consumes a rune or ends the run, and names a next state ready at the cursor it leaves |
| `TokenLexer.SymbolSpec` | lang/token/lexer.go:252-295 | the number, operator, comment, word and bracket cases make progress in the same sense |
| `TokenLexer.PunctSpec` | lang/token/lexer.go:230-251 | the cases that emit on the spot make progress in the same sense |
| `TokenLexer.EofSpec` | lang/token/lexer.go:303-310 | `lexEOF` makes progress at the end of input |
| `TokenLexer.SpaceSpec` | lang/token/lexer.go:314-320 | `lexSpace` makes progress |
| `TokenLexer.NewlineSpec` | lang/token/lexer.go:328-348 | `lexNewline` makes progress |
| `TokenLexer.QuoteScan` | lang/token/lexer.go:352-363 | the quoted-string loop stops at a closing quote, or past the escape that breaks it |
| `TokenLexer.QuotedSpec` | lang/token/lexer.go:351-368 | `lexQuotedString` makes progress |
| `TokenLexer.QuotedClosed` | lang/token/lexer.go:359-367 | a closed quoted string is sent as STR without its quotes, stamped one column back, and the closing quote is dropped |
| `TokenLexer.RawSpec` | lang/token/lexer.go:371-392 | `lexRawString` makes progress |
| `TokenLexer.OperatorType` | lang/token/lexer.go:397-445 | an operator type exactly for the nine operator runes, alone or with '=' |
| `TokenLexer.OperatorSpec` | lang/token/lexer.go:397-445 | `lexOperator` makes progress |
| `TokenLexer.NumberSpec` | lang/token/lexer.go:449-455 | `lexNumber` makes progress |
| `TokenLexer.AlnumEnd` | lang/token/lexer.go:459-465 | the run of alphanumeric runes ends at the first other rune |
| `TokenLexer.IdentifierSpec` | lang/token/lexer.go:458-480 | `lexIdentifier` makes progress |
| `TokenLexer.RightBracketSpec` | lang/token/lexer.go:491-512 | `lexRightBracket` makes progress |
| `TokenLexer.CloserSpec` | lang/token/lexer.go:498-511 | the emitting half of `lexRightBracket` makes progress |
| `TokenLexer.LineCommentSpec` | lang/token/lexer.go:515-523 | `lexSinglelineComment` makes progress |
| `TokenLexer.BlockCommentSpec` | lang/token/lexer.go:527-541 | `lexMultilineComment` makes progress |
| `TokenLexer.StepSpec` | lang/token/lexer.go:166-169 | every state function the run calls makes progress |
| `TokenLexer.Strip` | lang/token/lexer.go:124-132 | the tokens' types, texts and offsets, one for one |
| `TokenLexer.StampFree` | lang/token/lexer.go:124-163 | what a state does depends on the line and column only through the stamps of the tokens it sends |
| `TokenLexer.SteadyStampFree` | lang/token/lexer.go:303-541 | the same for the EOF, newline, raw-string, operator and block-comment states |
| `TokenLexer.QuotedStampFree` | lang/token/lexer.go:351-368 | the same for the quoted-string state |
| `TokenLexer.NumberStampFree` | lang/token/lexer.go:449-455 | the same for the number state |
| `TokenLexer.IdentifierStampFree` | lang/token/lexer.go:458-480 | the same for the identifier state |
| `TokenLexer.SymbolStampFree` | lang/token/lexer.go:252-295 | the same for the symbol cases of `lexCode` |
| `TokenLexer.PunctStampFree` | lang/token/lexer.go:230-251 | the same for the punctuation cases of `lexCode` |
| `TokenLexer.EmittingStampFree` | lang/token/lexer.go:124-132 | an emitting step depends on the line and column only through its token's stamp |
| `TokenLexer.FailingStampFree` | lang/token/lexer.go:156-163 | an error step depends on the line and column only through its token's stamp |
| `TokenLexer.RightBracketStampFree` | lang/token/lexer.go:491-512 | the same for the right-bracket state |
| `TokenLexer.TraceStep` | lang/token/lexer.go:166-169 | the run from a state sends what that state sends, then what the run from the state it names sends |
| `TokenLexer.TraceTurn` | lang/token/lexer.go:166-169 | after each turn, the tokens sent so far followed by the rest of the run are the whole run |
| `TokenLexer.Lexer.constructor` | lang/token/lexer.go:14-25 | a new lexer is at line 1, column 1, with nothing read or sent and an empty bracket stack |
| `TokenLexer.Lexer.Next` | lang/token/lexer.go:86-103 | reads the rune under the cursor; at the end nothing moves; a line break moves to the next line at column 1; any other rune moves one column on, remembering the old column |
| `TokenLexer.Lexer.Backup` | lang/token/lexer.go:113-120 | the cursor moves back by the width read, the column becomes the remembered one, and un-reading a line break moves back a line |
| `TokenLexer.Lexer.Peek` | lang/token/lexer.go:106-110 | the rune under the cursor, not consumed; after a line break or at the end the column becomes the remembered one |
| `TokenLexer.Lexer.Emit` | lang/token/lexer.go:124-132 | sends the pending text as a token of the type, stamped with the pending start, line and column, and records its type |
| `TokenLexer.Lexer.Ignore` | lang/token/lexer.go:135 | drops the pending text and nothing else changes |
| `TokenLexer.Lexer.Errorf` | lang/token/lexer.go:156-163 | sends one ERROR token whose value is the message, stamped at the pending start |
| `TokenLexer.Lexer.Accept` | lang/token/lexer.go:138-144 | consumes the next rune exactly when it is one of the valid ones |
| `TokenLexer.Lexer.AcceptRun` | lang/token/lexer.go:147-151 | consumes exactly the longest run of valid runes |
| `TokenLexer.Lexer.ScanNumber` | lang/token/lexer.go:174-194 | stops and judges the syntax as `NumberSyntax` says |
| `TokenLexer.Lexer.ScanMantissa` | lang/token/lexer.go:177-181 | consumes the digits and optional fraction as `MantissaEnd` says |
| `TokenLexer.Lexer.ScanExponent` | lang/token/lexer.go:183-186 | consumes the optional exponent as `ExponentEnd` says |
| `TokenLexer.Lexer.AtIdentifierTerminator` | lang/token/lexer.go:198-213 | true exactly when the rune under the cursor may end a word; the cursor does not move |
| `TokenLexer.Lexer.LexCode` | lang/token/lexer.go:221-300 | sends, moves and names the next state exactly as `CodeSpec` says |
| `TokenLexer.Lexer.LexSymbol` | lang/token/lexer.go:252-295 | exactly as `SymbolSpec` says |
| `TokenLexer.Lexer.LexPunct` | lang/token/lexer.go:230-251 | exactly as `PunctSpec` says |
| `TokenLexer.Lexer.LexDoubled` | lang/token/lexer.go:234-245 | a doubled '\|' or '&' is the logical operator, a lone one an error, as `PunctSpec` says |
| `TokenLexer.Lexer.LexEof` | lang/token/lexer.go:303-310 | exactly as `EofSpec` says |
| `TokenLexer.Lexer.LexSpace` | lang/token/lexer.go:314-320 | exactly as `SpaceSpec` says |
| `TokenLexer.Lexer.LexNewline` | lang/token/lexer.go:328-348 | exactly as `NewlineSpec` says |
| `TokenLexer.Lexer.LexQuotedString` | lang/token/lexer.go:351-368 | exactly as `QuotedSpec` says, stuck where the source spins |
| `TokenLexer.Lexer.CloseQuote` | lang/token/lexer.go:364-366 | sends the text before the quote as STR one column back and drops the quote |
| `TokenLexer.Lexer.SeekQuote` | lang/token/lexer.go:352-363 | the loop ends where `QuoteScan` says |
| `TokenLexer.Lexer.LexRawString` | lang/token/lexer.go:371-392 | exactly as `RawSpec` says; an unterminated string is reported at the opening quote's line and column |
| `TokenLexer.Lexer.SeekBacktick` | lang/token/lexer.go:374-387 | stops on the next '`' exactly when there is one, and at the end of input otherwise |
| `TokenLexer.Lexer.LexOperator` | lang/token/lexer.go:397-445 | exactly as `OperatorSpec` says |
| `TokenLexer.Lexer.LexNumber` | lang/token/lexer.go:449-455 | exactly as `NumberSpec` says |
| `TokenLexer.Lexer.LexIdentifier` | lang/token/lexer.go:458-480 | exactly as `IdentifierSpec` says |
| `TokenLexer.Lexer.LexRightBracket` | lang/token/lexer.go:491-512 | exactly as `RightBracketSpec` says |
| `TokenLexer.Lexer.EmitCloser` | lang/token/lexer.go:498-511 | exactly as `CloserSpec` says |
| `TokenLexer.Lexer.InsertBeforeCurly` | lang/token/lexer.go:501-507 | sends the text before the '}' as SEMICOLON one column back, then the '}' as RCURLY |
| `TokenLexer.Lexer.LexLineComment` | lang/token/lexer.go:515-523 | exactly as `LineCommentSpec` says |
| `TokenLexer.Lexer.LexBlockComment` | lang/token/lexer.go:527-541 | exactly as `BlockCommentSpec` says |
| `TokenLexer.Lexer.RunState` | lang/token/lexer.go:168 | calls the state function the state names, with the effect `StepSpec` gives |
| `TokenLexer.Lexer.Turn` | lang/token/lexer.go:167-169 | each turn names a state of smaller measure, or the nil or spinning state, and keeps what was sent plus the rest of the run equal to the whole run |
| `TokenLexer.Lexer.Run` | lang/token/lexer.go:166-171 | the tokens sent are exactly those of the run from `lexCode`, which ends in the nil state exactly when it halts |
| `TokenLexer.NewlineAsi` | lang/token/lexer.go:328-348 | a run of line breaks is one SEMICOLON holding the run exactly after a type that ends a statement, and is dropped otherwise |
| `TokenLexer.CurlySemicolon` | lang/token/lexer.go:498-507 | a '}' closing a '{' after a type other than SEMICOLON comes after an empty SEMICOLON one column back; after a SEMICOLON it comes alone |
| `TokenLexer.UnexpectedCloser` | lang/token/lexer.go:492-497 | a right bracket with nothing open, or closing the wrong opener, is exactly one ERROR and the end of the run |
| `TokenLexer.UnclosedAtEof` | lang/token/lexer.go:303-310 | at the end of input an open bracket is reported instead of EOF, and the run ends either way |
| `TokenLexer.LoneBarOrAmpersand` | lang/token/lexer.go:234-245 | a lone '\|' or '&' is one ERROR, and lexing goes on past the rune after it with the pending text unchanged |
| `TokenLexer.BarOrAmpersandIsPunct` | lang/token/lexer.go:234-245 | '\|' and '&' are handled by the punctuation cases |
| `TokenLexer.NumberSyntaxBad` | lang/token/lexer.go:174-194 | a number is bad exactly when an alphanumeric rune follows what was accepted, which is then consumed |
| `TokenLexer.ExponentExamples` | lang/token/lexer.go:183-186 | the exponent takes at most one digit: "1e23" is bad, "1e2" good |
| `TokenLexer.FractionExample` | lang/token/lexer_test.go:100-102 | "3.123" is one good number |
| `TokenLexer.LeadingZeroExample` | lang/token/lexer.go:447-448 | a leading zero is accepted: "012.9" is one good number |
| `TokenLexer.IdentifierKeyword` | lang/token/lexer.go:470-475 | a word is its keyword's type exactly when it spells a keyword, NAME otherwise |
| `TokenLexer.LineCommentThroughBreak` | lang/token/lexer.go:515-523 | a line comment is dropped up to and including its first line break, or to the end |
| `TokenLexer.BlockCommentCloses` | lang/token/lexer.go:527-541 | with no later star-slash the comment is one ERROR and the end of the run; otherwise it is dropped through the first pair |
| `TokenLexer.QuoteSpins` | lang/token/lexer.go:352-363 | a quoted string whose rest has neither a quote nor a backslash never ends |
| `TokenLexer.TraceEnds` | lang/token/lexer.go:166-171 | a run that halts ends with EOF or an ERROR, and sends EOF at most once, last |
| `TokenLexer.ContinueEnds` | lang/token/lexer.go:166-171 | the same, from any step that makes progress |
| `TokenLexer.EndsStop` | lang/token/lexer.go:303-310 | a last step whose only EOF is its last token ends the run well |
| `TokenLexer.EndsJoin` | lang/token/lexer.go:167-169 | tokens without EOF before a run that ends well end well |
| `LangLexer.KeyMap` | lang/lexer.go:167-181 | a word's entry is zero or a keyword type between `tokenFunc` and `tokenCont` |
| `LangLexer.CodeSpec` | lang/lexer.go:389-478 | `lexCode` always consumes a rune or ends the run, and names a next state ready at the cursor it leaves |
| `LangLexer.SymbolSpec` | lang/lexer.go:420-449 | the number, operator, comment and word cases make progress in the same sense |
| `LangLexer.PunctSpec` | lang/lexer.go:398-459 | the cases that send a token or an error on the spot make progress in the same sense |
| `LangLexer.CloserSpec` | lang/lexer.go:460-473 | the closing-bracket case makes progress |
| `LangLexer.EofSpec` | lang/lexer.go:481-488 | `lexEOF` makes progress at the end of input |
| `LangLexer.SpaceSpec` | lang/lexer.go:492-498 | `lexSpace` makes progress |
| `LangLexer.NewlineSpec` | lang/lexer.go:506-526 | `lexNewline` makes progress |
| `LangLexer.QuotedSpec` | lang/lexer.go:529-546 | `lexQuotedString` makes progress |
| `LangLexer.RawSpec` | lang/lexer.go:549-568 | `lexRawString` makes progress |
| `LangLexer.RawClosed` | lang/lexer.go:559-567 | a raw string with a later '`' is sent up to the first one, which is dropped |
| `LangLexer.OperatorType` | lang/lexer.go:573-621 | an operator type exactly for the nine operator runes, alone or with '=' |
| `LangLexer.OperatorSpec` | lang/lexer.go:573-621 | `lexOperator` makes progress |
| `LangLexer.NumberSpec` | lang/lexer.go:625-631 | `lexNumber` makes progress |
| `LangLexer.IdentifierSpec` | lang/lexer.go:634-656 | `lexIdentifier` makes progress |
| `LangLexer.LineCommentSpec` | lang/lexer.go:662-673 | `lexSinglelineComment` makes progress |
| `LangLexer.BlockCommentSpec` | lang/lexer.go:677-686 | `lexMultilineComment` makes progress |
| `LangLexer.StepSpec` | lang/lexer.go:322-327 | every state function the run calls makes progress |
| `LangLexer.Strip` | lang/lexer.go:265-274 | the tokens' types, offsets and texts, one for one |
| `LangLexer.LineFree` | lang/lexer.go:228 | what a state does depends on the line only through the lines of the tokens it sends |
| `LangLexer.SteadyLineFree` | lang/lexer.go:481-686 | the same for the EOF, newline, operator and block-comment states |
| `LangLexer.SymbolLineFree` | lang/lexer.go:420-449 | the same for the symbol cases of `lexCode` |
| `LangLexer.PunctLineFree` | lang/lexer.go:398-459 | the same for the punctuation cases of `lexCode` |
| `LangLexer.OpenerLineFree` | lang/lexer.go:450-459 | the same for an opening bracket |
| `LangLexer.DoubledLineFree` | lang/lexer.go:402-413 | the same for '\|' and '&' |
| `LangLexer.EmittingLineFree` | lang/lexer.go:265-274 | an emitting step depends on the line only through its token's line |
| `LangLexer.FailingLineFree` | lang/lexer.go:303-306 | an error step depends on the line only through its token's line |
| `LangLexer.OneLineFree` | lang/lexer.go:265-274 | two tokens that differ only in their line strip alike |
| `LangLexer.CloserLineFree` | lang/lexer.go:460-473 | the same for the closing-bracket case |
| `LangLexer.QuotedLineFree` | lang/lexer.go:529-546 | the same for the quoted-string state |
| `LangLexer.RawLineFree` | lang/lexer.go:549-568 | the same for the raw-string state |
| `LangLexer.NumberLineFree` | lang/lexer.go:625-631 | the same for the number state |
| `LangLexer.IdentifierLineFree` | lang/lexer.go:634-656 | the same for the identifier state |
| `LangLexer.TraceStep` | lang/lexer.go:323-325 | the run from a state sends what that state sends, then what the run from the state it names sends |
| `LangLexer.TraceTurn` | lang/lexer.go:323-325 | after each turn, the tokens sent so far followed by the rest of the run are the whole run |
| `LangLexer.Lexer.constructor` | lang/lexer.go:372-381 | a new lexer is on line 1 with nothing read or sent and an empty bracket stack |
| `LangLexer.Lexer.Next` | lang/lexer.go:233-245 | reads the rune under the cursor; at the end nothing moves; otherwise the cursor moves one on, and a line break adds a line |
| `LangLexer.Lexer.Backup` | lang/lexer.go:255-261 | the cursor moves back by the width read, and un-reading a line break takes the line back |
| `LangLexer.Lexer.Peek` | lang/lexer.go:248-252 | the rune under the cursor; the cursor and the line stay |
| `LangLexer.Lexer.Emit` | lang/lexer.go:265-274 | sends the pending text as a token of the type on the current line, records its type, and after a raw string moves the line on by the text's line breaks |
| `LangLexer.Lexer.Ignore` | lang/lexer.go:277-282 | drops the pending text, adding its line breaks to the line exactly when asked |
| `LangLexer.Lexer.Errorf` | lang/lexer.go:303-306 | sends one error token carrying the message at the pending start, and nothing else changes |
| `LangLexer.Lexer.Accept` | lang/lexer.go:285-291 | consumes the next rune exactly when it is one of the valid ones |
| `LangLexer.Lexer.AcceptRun` | lang/lexer.go:294-298 | consumes exactly the longest run of valid runes |
| `LangLexer.Lexer.ScanNumber` | lang/lexer.go:330-350 | stops and judges the syntax exactly as the scanner of lang/token/lexer.go does |
| `LangLexer.Lexer.ScanMantissa` | lang/lexer.go:333-337 | consumes the digits and optional fraction as that scanner does |
| `LangLexer.Lexer.ScanExponent` | lang/lexer.go:339-342 | consumes the optional exponent as that scanner does |
| `LangLexer.Lexer.AtIdentifierTerminator` | lang/lexer.go:354-369 | true exactly when the rune under the cursor may end a word; the cursor and the line stay |
| `LangLexer.Lexer.LexCode` | lang/lexer.go:389-478 | sends, moves and names the next state exactly as `CodeSpec` says |
| `LangLexer.Lexer.LexSymbol` | lang/lexer.go:420-449 | exactly as `SymbolSpec` says |
| `LangLexer.Lexer.LexPunct` | lang/lexer.go:398-459 | exactly as `PunctSpec` says |
| `LangLexer.Lexer.LexCloser` | lang/lexer.go:460-473 | exactly as `CloserSpec` says |
| `LangLexer.Lexer.LexEof` | lang/lexer.go:481-488 | exactly as `EofSpec` says |
| `LangLexer.Lexer.LexSpace` | lang/lexer.go:492-498 | exactly as `SpaceSpec` says |
| `LangLexer.Lexer.LexNewline` | lang/lexer.go:506-526 | exactly as `NewlineSpec` says |
| `LangLexer.Lexer.LexQuotedString` | lang/lexer.go:529-546 | exactly as `QuotedSpec` says, stuck where the source spins |
| `LangLexer.Lexer.LexRawString` | lang/lexer.go:549-568 | exactly as `RawSpec` says; an unterminated string keeps the opening line, a closed one moves the line on twice per line break in its text |
| `LangLexer.Lexer.CloseRaw` | lang/lexer.go:564-566 | sends the text before the '`' as a raw string, counts its line breaks, and drops the '`' |
| `LangLexer.Lexer.SeekBacktick` | lang/lexer.go:551-563 | stops before the next '`' exactly when there is one, having counted the line breaks read, and at the end of input otherwise |
| `LangLexer.Lexer.LexOperator` | lang/lexer.go:573-621 | exactly as `OperatorSpec` says |
| `LangLexer.Lexer.LexNumber` | lang/lexer.go:625-631 | exactly as `NumberSpec` says |
| `LangLexer.Lexer.LexIdentifier` | lang/lexer.go:634-656 | exactly as `IdentifierSpec` says |
| `LangLexer.Lexer.LexLineComment` | lang/lexer.go:662-673 | exactly as `LineCommentSpec` says, and the line does not move |
| `LangLexer.Lexer.LexBlockComment` | lang/lexer.go:677-686 | exactly as `BlockCommentSpec` says, counting the skipped line breaks |
| `LangLexer.Lexer.RunState` | lang/lexer.go:324 | calls the state function the state names, with the effect `StepSpec` gives |
| `LangLexer.Lexer.Turn` | lang/lexer.go:323-325 | each turn names a state of smaller measure, or the nil or spinning state, and keeps what was sent plus the rest of the run equal to the whole run |
| `LangLexer.Lexer.Run` | lang/lexer.go:322-327 | the tokens sent are exactly those of the run from `lexCode`, which ends in the nil state exactly when it halts |
| `LangLexer.TokenString` | lang/lexer.go:23-35 | "EOF", "<err: …>", ";", a keyword's text in angle brackets, or any other token's text quoted |
| `LangLexer.WordTypeKeyword` | lang/lexer.go:646-651 | a word is a keyword's type exactly when it is in `keyMap`, and that type spells the word |
| `LangLexer.KeywordTypes` | lang/lexer.go:167-181 | each keyword maps to its own type, in declaration order |
| `LangLexer.NewlineSemicolon` | lang/lexer.go:506-526 | a run of line breaks is one SEMICOLON holding the run exactly after a type that ends a statement, and is dropped otherwise; a '}' does not end a statement |
| `LangLexer.CloserMatches` | lang/lexer.go:460-473 | a right bracket with nothing open, or closing the wrong opener, is exactly one error and the end of the run; one closing the innermost opener is its own token, that opener popped |
| `LangLexer.CodeAtCloser` | lang/lexer.go:460 | `lexCode` hands a closing bracket to the closer's case |
| `LangLexer.CloserOutcome` | lang/lexer.go:460-473 | the closer's case gives the outcome `CloserMatches` states |
| `LangLexer.UnclosedAtEof` | lang/lexer.go:481-488 | at the end of input the innermost open bracket is reported instead of EOF, and the run ends either way |
| `LangLexer.LoneBarOrAmpersand` | lang/lexer.go:402-413 | a lone '\|' or '&' is one error, and lexing goes on past the rune after it with the pending text unchanged |
| `LangLexer.RawStringLines` | lang/lexer.go:549-568 | a closed raw string is sent up to its first '`' on the line that '`' is on, and the line after it has moved on by its line breaks once more |
| `LangLexer.LineCommentToBreak` | lang/lexer.go:662-673 | a line comment is dropped up to, not including, its first line break, or to the end |
| `LangLexer.BlockCommentCloses` | lang/lexer.go:677-686 | with no later star-slash the comment is one error and the end of the run; otherwise it is dropped through the first pair |
| `LangLexer.TraceEnds` | lang/lexer.go:322-327 | a run that halts ends with EOF or an error, and sends EOF at most once, last |
| `LangLexer.ContinueEnds` | lang/lexer.go:322-327 | the same, from any step that makes progress |
| `LangLexer.EndsStop` | lang/lexer.go:481-488 | a last step whose only EOF is its last token ends the run well |
| `LangLexer.EndsJoin` | lang/lexer.go:323-325 | tokens without EOF before a run that ends well end well |
| `UtilsLexer.KeyMap` | utils/lexer.go:112-123 | a word's entry is zero or a keyword type between `tokenFunc` and `tokenIn` |
| `UtilsLexer.TokenString` | utils/lexer.go:23-37 | "EOF", an error's bare message, "SPACE", a keyword's text in angle brackets, or any other token's text quoted |
| `UtilsLexer.NumberSyntax` | utils/lexer.go:238-259 | `scanNumber`, with its optional leading sign, never moves backwards |
| `UtilsLexer.NewlineRunEnd` | utils/lexer.go:421-433 | the run of "\n" and "\r\n" ends at the end of input or at a rune that starts neither |
| `UtilsLexer.QuoteScan` | utils/lexer.go:441-454 | the quoted-string loop stops on a closing '"', or in an error at a backslash that is the last rune |
| `UtilsLexer.CodeSpec` | utils/lexer.go:299-395 | `lexCode` always consumes a rune or ends the run, and names a next state ready at the cursor it leaves |
| `UtilsLexer.SymbolSpec` | utils/lexer.go:326-363 | the property, number, operator, comment and word cases make progress in the same sense |
| `UtilsLexer.BracketSpec` | utils/lexer.go:364-392 | the bracket cases and the fallback error make progress |
| `UtilsLexer.CloserSpec` | utils/lexer.go:367-390 | a closing bracket makes progress |
| `UtilsLexer.EofSpec` | utils/lexer.go:398-408 | `lexEOF` makes progress at the end of input |
| `UtilsLexer.SpaceSpec` | utils/lexer.go:411-417 | `lexSpace` makes progress |
| `UtilsLexer.NewlineSpec` | utils/lexer.go:420-436 | `lexNewline` sends one NEWLINE token for the run it read and makes progress, or, at a lone '\r', sends an empty NEWLINE token and is the state that goes round for ever |
| `UtilsLexer.QuotedOutcome` | utils/lexer.go:439-457 | a quoted string is sent through its closing quote, is an error at a trailing backslash, or spins |
| `UtilsLexer.QuotedSpec` | utils/lexer.go:439-457 | `lexQuotedString` makes progress |
| `UtilsLexer.RawSpec` | utils/lexer.go:460-476 | `lexRawString` makes progress |
| `UtilsLexer.OperatorType` | utils/lexer.go:481-529 | an operator type exactly for the nine operator runes, alone or with '=' |
| `UtilsLexer.OperatorSpec` | utils/lexer.go:481-529 | `lexOperator` makes progress |
| `UtilsLexer.PropertySpec` | utils/lexer.go:533-549 | `lexProperty` makes progress |
| `UtilsLexer.NumberSpec` | utils/lexer.go:553-559 | `lexNumber` makes progress |
| `UtilsLexer.IdentifierSpec` | utils/lexer.go:562-586 | `lexIdentifier` makes progress |
| `UtilsLexer.LineCommentSpec` | utils/lexer.go:592-603 | `lexSinglelineComment` makes progress |
| `UtilsLexer.BlockCommentSpec` | utils/lexer.go:607-616 | `lexMultilineComment` makes progress |
| `UtilsLexer.StepSpec` | utils/lexer.go:231-236 | every state function the run calls makes progress |
| `UtilsLexer.Strip` | utils/lexer.go:177-185 | the tokens' types, offsets and texts, one for one |
| `UtilsLexer.StripLineFree` | utils/lexer.go:177-185 | tokens that differ only in their lines strip alike |
| `UtilsLexer.LineFree` | utils/lexer.go:130-145 | what a state does depends on the line only through the lines of the tokens it sends |
| `UtilsLexer.CodeLineFree` | utils/lexer.go:299-395 | the same for `lexCode` |
| `UtilsLexer.SymbolLineFree` | utils/lexer.go:326-363 | the same for the symbol cases of `lexCode` |
| `UtilsLexer.BracketLineFree` | utils/lexer.go:364-392 | the same for the bracket cases of `lexCode` |
| `UtilsLexer.EmittingLineFree` | utils/lexer.go:177-185 | an emitting step depends on the line only through its token's line |
| `UtilsLexer.CloserLineFree` | utils/lexer.go:367-390 | the same for a closing bracket |
| `UtilsLexer.EofLineFree` | utils/lexer.go:398-408 | the same for the EOF state |
| `UtilsLexer.SpaceLineFree` | utils/lexer.go:411-417 | the same for the space state |
| `UtilsLexer.NewlineLineFree` | utils/lexer.go:420-436 | the same for the newline state |
| `UtilsLexer.QuotedLineFree` | utils/lexer.go:439-457 | the same for the quoted-string state |
| `UtilsLexer.RawLineFree` | utils/lexer.go:460-476 | the same for the raw-string state |
| `UtilsLexer.OperatorLineFree` | utils/lexer.go:481-529 | the same for the operator state |
| `UtilsLexer.PropertyLineFree` | utils/lexer.go:533-549 | the same for the property state |
| `UtilsLexer.NumberLineFree` | utils/lexer.go:553-559 | the same for the number state |
| `UtilsLexer.IdentifierLineFree` | utils/lexer.go:562-586 | the same for the identifier state |
| `UtilsLexer.BlockCommentLineFree` | utils/lexer.go:607-616 | the same for the block-comment state |
| `UtilsLexer.TraceStep` | utils/lexer.go:232-234 | the run from a state sends what that state sends, then what the run from the state it names sends |
| `UtilsLexer.TraceTurn` | utils/lexer.go:232-234 | after each turn, the tokens sent so far followed by the rest of the run are the whole run |
| `UtilsLexer.Lexer.constructor` | utils/lexer.go:282-291 | a new lexer is on line 1 with nothing read or sent and every bracket depth zero |
| `UtilsLexer.Lexer.Next` | utils/lexer.go:146-158 | reads the rune under the cursor; at the end nothing moves; otherwise the cursor moves one on, and a line break adds a line |
| `UtilsLexer.Lexer.Backup` | utils/lexer.go:168-174 | the cursor moves back by the width read, and un-reading a line break takes the line back |
| `UtilsLexer.Lexer.Peek` | utils/lexer.go:161-165 | the rune under the cursor; the cursor and the line stay |
| `UtilsLexer.Lexer.Emit` | utils/lexer.go:177-185 | sends the pending text as a token of the type on the current line, and after either kind of string moves the line on by the text's line breaks |
| `UtilsLexer.Lexer.EmitString` | utils/lexer.go:455-456 | a string's token is stamped with the line after it less its text's line breaks |
| `UtilsLexer.Lexer.Ignore` | utils/lexer.go:188-191 | drops the pending text, adding its line breaks to the line |
| `UtilsLexer.Lexer.Errorf` | utils/lexer.go:212-215 | sends one error token carrying the message at the pending start, and nothing else changes |
| `UtilsLexer.Lexer.Accept` | utils/lexer.go:194-200 | consumes the next rune exactly when it is one of the valid ones |
| `UtilsLexer.Lexer.AcceptRun` | utils/lexer.go:203-207 | consumes exactly the longest run of valid runes |
| `UtilsLexer.Lexer.ScanNumber` | utils/lexer.go:238-259 | stops and judges the syntax as `NumberSyntax` says |
| `UtilsLexer.Lexer.ScanMantissa` | utils/lexer.go:243-247 | consumes the digits and optional fraction as the scanner of lang/token/lexer.go does |
| `UtilsLexer.Lexer.ScanExponent` | utils/lexer.go:249-252 | consumes the optional exponent as that scanner does |
| `UtilsLexer.Lexer.AtIdentifierTerminator` | utils/lexer.go:263-279 | true exactly when the rune under the cursor may end a word; the cursor and the line stay |
| `UtilsLexer.Lexer.LexCode` | utils/lexer.go:299-395 | sends, moves and names the next state exactly as `CodeSpec` says |
| `UtilsLexer.Lexer.LexSymbol` | utils/lexer.go:326-363 | exactly as `SymbolSpec` says |
| `UtilsLexer.Lexer.LexBracket` | utils/lexer.go:364-392 | exactly as `BracketSpec` says |
| `UtilsLexer.Lexer.LexCloser` | utils/lexer.go:367-390 | exactly as `CloserSpec` says |
| `UtilsLexer.Lexer.LexEof` | utils/lexer.go:398-408 | exactly as `EofSpec` says |
| `UtilsLexer.Lexer.LexSpace` | utils/lexer.go:411-417 | exactly as `SpaceSpec` says |
| `UtilsLexer.Lexer.LexNewline` | utils/lexer.go:420-436 | exactly as `NewlineSpec` says, stuck after its empty NEWLINE token where the source goes round for ever |
| `UtilsLexer.Lexer.SeekLineEnds` | utils/lexer.go:421-433 | consumes exactly the run `NewlineRunEnd` gives |
| `UtilsLexer.Lexer.LexQuotedString` | utils/lexer.go:439-457 | exactly as `QuotedSpec` says; an unterminated string keeps the opening line |
| `UtilsLexer.Lexer.SeekQuote` | utils/lexer.go:441-454 | ends as `QuoteScan` says: just past the closing quote, or at the end of input |
| `UtilsLexer.Lexer.LexRawString` | utils/lexer.go:460-476 | exactly as `RawSpec` says; an unterminated string keeps the opening line |
| `UtilsLexer.Lexer.LexOperator` | utils/lexer.go:481-529 | exactly as `OperatorSpec` says |
| `UtilsLexer.Lexer.LexProperty` | utils/lexer.go:533-549 | exactly as `PropertySpec` says |
| `UtilsLexer.Lexer.LexNumber` | utils/lexer.go:553-559 | exactly as `NumberSpec` says |
| `UtilsLexer.Lexer.LexIdentifier` | utils/lexer.go:562-586 | exactly as `IdentifierSpec` says |
| `UtilsLexer.Lexer.LexLineComment` | utils/lexer.go:592-603 | exactly as `LineCommentSpec` says |
| `UtilsLexer.Lexer.LexBlockComment` | utils/lexer.go:607-616 | exactly as `BlockCommentSpec` says, counting the skipped line breaks |
| `UtilsLexer.Lexer.RunState` | utils/lexer.go:233 | calls the state function the state names, with the effect `StepSpec` gives |
| `UtilsLexer.Lexer.Turn` | utils/lexer.go:232-234 | each turn names a state of smaller measure, or the nil or spinning state, and keeps what was sent plus the rest of the run equal to the whole run |
| `UtilsLexer.Lexer.Run` | utils/lexer.go:231-236 | the tokens sent are exactly those of the run from `lexCode`, which ends in the nil state exactly when it halts |
| `UtilsProps.WordTypes` | utils/lexer.go:574-581 | a word is BOOL exactly when it is "true" or "false", a keyword's type exactly when it is in `keyMap` (and that type spells it), and NAME otherwise |
| `UtilsProps.KeywordTypes` | utils/lexer.go:112-123 | each keyword maps to its own type, in declaration order |
| `UtilsProps.SpaceRun` | utils/lexer.go:411-417 | a run of blanks is one SPACE token covering exactly the whole run |
| `UtilsProps.NewlineRunShape` | utils/lexer.go:421-433 | the run holds only line-break runes, and each '\r' in it comes right before a '\n' |
| `UtilsProps.NewlineRun` | utils/lexer.go:420-436 | a run of "\n" and "\r\n" is one NEWLINE token; at a '\r' no '\n' follows it sends an empty NEWLINE token and spins |
| `UtilsProps.SignedNumber` | utils/lexer.go:338-346 | a '+' or '-' right before a digit starts a number that takes the sign and the digit |
| `UtilsProps.OneMinusTwo` | utils/lexer.go:338-346 | "1-2" lexes as the number "1" and then the number "-2", never a minus |
| `UtilsProps.OneMinusTwoNumbers` | utils/lexer.go:238-259 | the two number scans of "1-2" end after "1" and after "-2", both good |
| `UtilsProps.CodeCloser` | utils/lexer.go:367-390 | `lexCode` hands a closing bracket to the closer's case |
| `UtilsProps.CloserDepth` | utils/lexer.go:367-390 | a closer is sent first, its depth goes one down, and an error follows, ending the run, exactly when that depth was zero |
| `UtilsProps.EofOrder` | utils/lexer.go:398-408 | EOF exactly when no bracket is open; otherwise one error naming the first open kind in the order paren, brace, square |
| `UtilsProps.PropertyDot` | utils/lexer.go:533-549 | a '.' before a non-digit starts a property: one token of the '.' and its word when a terminator follows; a terminator right after the '.' or after the word otherwise reports a bad character |
| `UtilsProps.CodeOpensString` | utils/lexer.go:322-325 | a '"' or '`' opens a string without sending anything |
| `UtilsProps.QuotedKeepsQuotes` | utils/lexer.go:439-457 | a closed quoted string is one token, at its opening quote, whose text keeps both quotes |
| `UtilsProps.ClosedQuote` | utils/lexer.go:451-456 | a quoted string closed at a quote is sent through that quote |
| `UtilsProps.QuotedText` | utils/lexer.go:455 | that token's text starts and ends with '"' |
| `UtilsProps.QuotedUnterminated` | utils/lexer.go:444-450 | a trailing backslash is one error at the opening quote; a string still open at the end sends nothing and spins |
| `UtilsProps.RawKeepsTicks` | utils/lexer.go:460-476 | a closed raw string is one token keeping both '`'s and none between them |
| `UtilsProps.TickedText` | utils/lexer.go:470-474 | a text from a '`' to the first next '`' holds '`' only at its ends |
| `UtilsProps.RawUnterminated` | utils/lexer.go:464-469 | a raw string is an error exactly when no '`' follows, one error at the opening '`' |
| `UtilsProps.TraceEnds` | utils/lexer.go:231-236 | a run that halts ends with EOF or an error, and sends EOF at most once, last |
| `UtilsProps.ContinueEnds` | utils/lexer.go:231-236 | the same, from any step that makes progress |
| `UtilsProps.EndsStop` | utils/lexer.go:398-408 | a last step whose only EOF is its last token ends the run well |
| `UtilsProps.EndsJoin` | utils/lexer.go:232-234 | tokens without EOF before a run that ends well end well |

## Left out

- Goroutines and channels: `tokenise`/`Tokenise`, `nextToken`/`Next`, `drain`/`Drain` and the closing of the channel are not modelled. The tokens a lexer sends are its `out` sequence, and `run` is a sequential loop over an enumeration of the state functions.
- Panic and recover: a panic is a failed result (`Failed`, `Raised`, `None`), and the recover in the parsers' `Run`/`Parse` is the caller reading that result. The `stopParse` marker is not modelled.
- Floating point: a float64 is an exact `real`, so rounding, infinities, NaN and -0 are not modelled. A float division by zero ends the evaluation in `Unrepresented`, with no error recorded, as the source records none.
- `strconv.ParseInt`, `ParseFloat` and `Itoa` of a float: their outcomes are parameters of `NewNumber` (`IntParse`, `FloatParse`), not computed from the text.
- Unicode: `unicode.IsLetter`/`IsDigit` are the ASCII letters and digits, and every rune is one character wide, so UTF-8 decoding is not modelled.
- Runes.Quote: renders `%q` as the text between double quotes, without Go's escaping of quotes, backslashes and non-printable runes.
- Runes.RuneU: renders `%#U` as "U+XXXX 'c'" for every rune, including the non-printable ones, where Go leaves out the quoted rune.
- ScanLexer.Lexer: the line and column are not tied to the number of line breaks before the cursor. Each step states how it changes them instead.
- TokenErrors.ErrorList.Error: the printing of the list to standard output is not modelled; only the returned text is.
- UtilsParser.Parser.Errorf: the message is taken with its arguments already in place. The source splices the parser's name into the format string before formatting, so a '%' in the name would be read as a verb; that is not modelled.
- AstParser.Parser.Errorf: lang/parser/parser.go calls a three-argument `errors.Add` that the `ErrorList` of lang/token/errors.go does not have. The model appends `NewSyntaxError(name, pos, Sprintf(msg))`, which is what such an `Add` would build, with the format passed through `fmt.Sprintf` with no arguments as the source does.
- AstParser.VerbIndex: the `*` width, `[n]` argument indexes and widths or precisions past Go's limit of a million are not modelled; no message this parser builds has them after a '%'.
- TokenErrors.IsValid: lang/token/errors.go calls a `Pos.IsValid` that lang/token/token.go does not define; the model takes the zero position as the invalid one.
- TokenErrors.ErrorList.Sort: errors that differ only in their type are left in the order insertion sort gives them; Go's unstable `sort.Sort` may order such ties otherwise.
- AstParser.Parser.Scan: lang/parser/parser.go builds its tokeniser with `token.NewLexer(name, input, eh)` and reads it with `Scan`, neither of which lang/token/lexer.go defines. The tokens are a parameter of the parser, and the errors the handler `eh` would add to `p.errors` while scanning are not modelled, so `Run`'s errors are the parse errors only.
- AstParser.Parser.Sync: `sync` also stops before a `CLASS` token, a type that lang/token/token.go does not define. That case is left out.
- Input that makes the source loop forever is a `Stuck` (or `Spins`) state that ends the model's run: a quoted string that reaches the end of input, an unterminated raw string in lang/lexer/lexer.go, and a lone '\r' in utils/lexer.go, where the model sends the first of the endless empty NEWLINE tokens and not the rest. Such a run does not halt, which the whole-run lemmas take into account.
- The double counting of line breaks after a raw string in lang/lexer.go, and after either kind of string in utils/lexer.go, is modelled as written. It is stated, not treated as a finding.
- Node constructors: lang/parser.go calls `newBinExpr`, `newUnExpr`, `newBasicLit` and `newDict`, which lang/node.go does not define, and a three-argument `newList`, where lang/node.go has two arguments. Its tree is therefore a datatype of its own, `LangParser.Node`.
- Semantic.SymbolTable.InitTypeSystem: the order in which the map of built-in types is ranged is a free choice, and only the resulting scope is stated.
- `Wmap.String`/`toString` (output depends on map iteration order) is not modelled; neither are the interface-only files lang/nodewalker.go, lang/nodevisitor.go and utils/nodevisitor.go.
- lang/interpreter.go and utils/interpreter.go (unfinished stubs), main.go, utils/main.go, cmd/cli.go and tool/ast-generate.go are not part of this model.
- The go-prompt UI of cmd/repl.go (`completer`, `changeLivePrefix` and the terminal itself) is not modelled. The interpreter that `runOnce` hands a query to is not modelled either: the query handed over is an output of `RunOnce`.
- The evaluator's `Run`, `execute` and `VisitExprStmt` are not modelled. They print each statement's value, or the recovered error, to standard output. `Stringify`, which builds that text, is modelled.
- The membership operator `in` has no evaluation in the source, and none is given here.

## Findings

| source | as written | input that shows it | evidently intended | confidence | as-written member | corrected member |
|---|---|---|---|---|---|---|
| lang/token/errors.go:125-138 | `lastFn` is never reassigned, so every error whose input name is non-empty is kept | two errors of input "f" on line 3: both survive `RemoveMultiples` | keep only the first error per (input name, line) | not executed | `TokenErrors.AsWrittenKeepsDuplicateLine` | `TokenErrors.KeepFirstPerLineSpec` |
| lang/parser.go:334 | `parseDict`'s loop stops at `]`, not at `}` | `{ , }`: at the `}` the loop takes one more turn, gathering a nil element, before `nextComma` ends it; two nil elements in all | stop at `}`, as `parseArray` stops at `]`; `{ , }` gathers one | not executed | `LangParserProps.DictOfCommasAsWritten` | `LangParserProps.DictOfCommasIntended` |
| lang/lexer/lexer.go:240-249 | a '}' that closes a '{' after a token other than a semicolon returns a SEMICOLON token spelled "}" that consumes the brace, so no RCURLY follows | "{x}": LCURLY, NAME, SEMICOLON "}", EOF | insert a SEMICOLON ";" before the brace and then return RCURLY "}", as the brace case of lang/lexer/lexer_test.go lists | not executed | `ScanProps.BraceBlockAsWritten` | `ScanProps.CurlyIntendedSpec` |
