# A verified model of the bar pseudocode interpreter

bar runs programs written in a small school pseudocode:

```
PROGRAM demo
CONSTANTS
  limit = 10
VARIABLES
  i, total : INTEGER
  seen : BOOLEAN [5]
BEGIN
  LET total = 0
  FOR i FROM 1 TO limit STEP 2
    LET total = total + i ^ 2
  ENDFOR
  PRINT "total", total
END
```

It has three stages.

- **The scanner** (`modules/lexer.ts`, with the character classes of `modules/helper.ts`) turns source text into tokens.
- **The recursive-descent parser** (`modules/parser.ts`) pulls those tokens one at a time and builds a syntax tree.
- **The tree-walking interpreter** (`modules/interpreter.ts`) runs the tree against a symbol table and prints with `console.log`.

This project models all three stages in Dafny and proves properties of them.

How each stage is modelled:

- **Scanner.** `Lexer.Scan` and `Lexer.Lex` are functions that say which token starts at a cursor and what the whole token stream is. The class `Lexer.Lexer` keeps the source's cursor fields (`curPos`, `curChar`) and its methods (`NextChar`, `PeekChar`, `SkipWhitespace`, `SkipComment`, `NextToken`, plus one method per literal branch of `nextToken`). Each method is proved to move the cursor exactly as those functions say.
- **Parser.** Module `Grammar` gives one function per parser rule. Each takes a token stream and a position and returns the node and the position after it, or the error the rule raises. The class `Parsing.Parser` has the source's cursor (`token`, plus the index `pos`) and one method per rule. Every method is proved to follow its rule (`Follows`). `Parsing.Tokenize` and `Parsing.ParseSource` connect the scanner to the parser.
- **Interpreter.** Module `Semantics` gives `visit` as functions: `Eval` for expressions, and `Exec`/`ExecBlock` for statements from one `State` (table and printed lines) to the next. Module `Symbols` has the symbol table: a class `SymbolTable` whose map field is reassigned by `set`, `initArray` and `setArray`, with functions stating the new map. The class `Interpreting.Interpreter` runs a tree with loops and table updates, as the source does, and each of its methods is proved to follow `Semantics`. `Interpreting.RunSource` is `main.ts`: lex, parse, interpret.
- **Values.** Module `Values` covers the (value, type) pairs, `typecast` and the operator rules. A value carries its type tag.

The proved properties include:

- the token catalogue's key lookup is a bijection on keys;
- the exact lexeme, kind and end of every token family;
- the shapes the parser builds: `^` nests right, `+ - &` / `* / %` / `AND OR` nest left, each comparison operator is applied at most once and in list order, and declaration lines are read in order;
- the typing of each operator and its integer arithmetic, including truncating division;
- the order in which CONSTANT, VARIABLE, ASSIGN, FOR, RESIZE and array reads check for errors;
- that SWITCH runs exactly the first matching case;
- where the counter of a FOR with an empty body ends;
- that REPEAT is its body followed by a WHILE, for a condition that always typecasts to a boolean;
- that every statement keeps each stored value in agreement with its entry's type;
- that more fuel never changes an outcome that did not run out of fuel.

## Model

| member | source | states |
|---|---|---|
| CharClass.IsDigit | modules/helper.ts:6-9 | the class `[0-9]` on the one character the scanner passes; `DigitNotAlpha` and `SentinelInNeither` state what the scanner relies on |
| CharClass.IsAlpha | modules/helper.ts:11-14 | the class `[A-Za-z_]` on one character; see `DigitNotAlpha` |
| CharClass.DigitNotAlpha | modules/helper.ts:1-14 | no character is both a digit and a word-start character, so a word never starts with a digit |
| CharClass.SentinelInNeither | modules/helper.ts:6-14 | the NUL end-of-input sentinel is in neither class, so every peek-driven scan stops at the end |
| Tokens.NamedRoundTrip | modules/lexer.ts:47-55 | looking up the TokenType key of any kind finds that kind |
| Tokens.NamedInverse | modules/lexer.ts:47-55 | a string the key lookup finds is exactly the key of the kind found, so the lookup is one-to-one on keys |
| Lexer.SkipBlanks | modules/lexer.ts:33-37 | the position reached is the first non-blank at or after the cursor, and everything skipped is a space, tab or carriage return |
| Lexer.CommentEnd | modules/lexer.ts:39-45 | a comment ends at the next newline (or the end of the input) and contains no newline |
| Lexer.AfterComment | modules/lexer.ts:39-45 | without `#` under the cursor nothing is skipped |
| Lexer.DigitRunEnd | modules/lexer.ts:199-201 | the run after the cursor is all digits and the character after it is not a digit |
| Lexer.WordEnd | modules/lexer.ts:226-228 | the run after the cursor is all letters, digits and `_`, and the character after it is none of these |
| Lexer.StringEnd | modules/lexer.ts:171-173 | the result is the first `"` at or after the position, and there is none exactly when the result is absent |
| Lexer.ScanAt | modules/lexer.ts:85-237 | a scan that succeeds moves forward, and stays inside the text unless it yields EOF |
| Lexer.Scan | modules/lexer.ts:76-240 | the same for the scan after blanks and a comment |
| Lexer.Lex | modules/lexer.ts:76-240 | a stream without failure ends with exactly one EOF, and no earlier token is EOF |
| Lexer.LexCons | modules/lexer.ts:76-240 | a non-EOF token moves from the stream onto the collected tokens without changing the outcome |
| Lexer.LexStops | modules/lexer.ts:85-87 | the stream ends at a failing scan, or after an EOF |
| Lexer.KeywordType | modules/lexer.ts:47-55 | the kind named by a word when its code is 100 or more, else IDENT; `LexerFacts.KeywordLookup` states this rule |
| Lexer.StringLit | modules/lexer.ts:167-177 | a string literal that is read ends after its opening quote and inside the text; `LexerFacts.StringToken` states its lexeme |
| Lexer.CharLit | modules/lexer.ts:178-191 | a character literal that is read ends after its opening quote and inside the text; `LexerFacts.CharToken` states both accepted shapes |
| Lexer.NumberLit | modules/lexer.ts:195-219 | a number that is read ends after its first digit and inside the text; `LexerFacts.IntegerToken`, `FloatToken` and `BadFloat` state its lexeme and failure |
| Lexer.WordLit | modules/lexer.ts:223-234 | a word that is read ends after its first character and inside the text; `LexerFacts.WordToken` states its lexeme and kind |
| Lexer.Lexer.constructor | modules/lexer.ts:20-26 | the cursor starts on the first character |
| Lexer.Lexer.NextChar | modules/lexer.ts:65-74 | the cursor moves one place and `curChar` is the character under it, or NUL past the end |
| Lexer.Lexer.PeekChar | modules/lexer.ts:57-63 | the character after the cursor, or NUL past the end |
| Lexer.Lexer.SkipWhitespace | modules/lexer.ts:33-37 | the cursor ends at `SkipBlanks` of where it started |
| Lexer.Lexer.SkipComment | modules/lexer.ts:39-45 | the cursor ends at `AfterComment` of where it started |
| Lexer.Lexer.ReadString | modules/lexer.ts:167-177 | the token and cursor are those of `StringLit` |
| Lexer.Lexer.ReadChar | modules/lexer.ts:178-191 | the token, cursor and failure are those of `CharLit` |
| Lexer.Lexer.ReadDigits | modules/lexer.ts:199-201 | the cursor ends on the last digit of the run, and the peeked character is the one after it |
| Lexer.Lexer.ReadNumber | modules/lexer.ts:195-219 | the token, cursor and failure are those of `NumberLit` |
| Lexer.Lexer.ReadWord | modules/lexer.ts:223-234 | the token and cursor are those of `WordLit` |
| Lexer.Lexer.NextToken | modules/lexer.ts:76-241 | the token, the new cursor and the failure are those of `Scan` from the old cursor |
| LexerFacts.EofIsSticky | modules/lexer.ts:65-74 | past the end the scanner sees NUL and yields EOF again and again |
| LexerFacts.BlankIsSkipped | modules/lexer.ts:33-37 | a leading blank does not change the token scanned |
| LexerFacts.NewlineIsToken | modules/lexer.ts:88-90 | a newline is a NEWLINE token of its own |
| LexerFacts.CommentIsSkipped | modules/lexer.ts:39-45 | a comment is skipped up to the newline that ends it, which is the next token |
| LexerFacts.Operators | modules/lexer.ts:133-163 | `==`, `!=`, `>=` and `<=` take two characters; `=`, `>` and `<` alone are one-character tokens; a `!` alone is an unknown token |
| LexerFacts.DigitStartsNumber | modules/lexer.ts:195 | a digit starts a number |
| LexerFacts.IntegerToken | modules/lexer.ts:195-219 | digits without a point make an INT_TYPE whose lexeme is exactly the maximal digit run |
| LexerFacts.FloatToken | modules/lexer.ts:203-215 | digits, a point and digits make a FLOAT_TYPE whose lexeme is exactly that text |
| LexerFacts.BadFloat | modules/lexer.ts:212-214 | a point not followed by a digit fails the number |
| LexerFacts.WordToken | modules/lexer.ts:223-234 | a word is the maximal run of word characters, and its kind is the keyword lookup of that text |
| LexerFacts.StringToken | modules/lexer.ts:167-177 | a string runs from its quote to the next quote inclusive, with no quote inside; without one it fails |
| LexerFacts.CharToken | modules/lexer.ts:178-191 | a character literal is quote-char-quote or two quotes; anything else fails |
| LexerFacts.KeywordLookup | modules/lexer.ts:47-55 | a word's kind is the table entry with that key when its code is 100 or more, and IDENT otherwise |
| LexerFacts.KeywordExamples | modules/lexer.ts:47-55 | statement words and operator keys alike are keywords; lower case and codes below 100 give IDENT |
| Grammar.Advance | modules/parser.ts:272-274 | the parser can advance exactly when a next token exists; otherwise the scanner's failure surfaces |
| Grammar.Expect | modules/parser.ts:290-301 | `match` succeeds only on the expected kind and consumes exactly one token |
| Grammar.ExpectOneOf | modules/parser.ts:303-320 | `matchList` returns the current kind when it is in the list and fails naming the list otherwise |
| Grammar.ParseNewline | modules/parser.ts:819-825 | afterwards no NEWLINE is under the cursor, and a forced newline consumed at least one token |
| Grammar.SkipNewlines | modules/parser.ts:822-824 | exactly the NEWLINE tokens are skipped |
| Grammar.ParseProgram | modules/parser.ts:337-354 | a program consumes tokens and stops on a token other than NEWLINE |
| Grammar.ParseDeclare | modules/parser.ts:358-363 | the declaration part stays inside the stream |
| Grammar.ParseConstants | modules/parser.ts:365-385 | without CONSTANTS there are no constants and nothing is consumed |
| Grammar.ConstantsFrom | modules/parser.ts:372-381 | the constant loop stops only on VARIABLES or BEGIN and only adds constants |
| Grammar.ParseVariables | modules/parser.ts:387-425 | without VARIABLES there are no variables and nothing is consumed |
| Grammar.VariablesFrom | modules/parser.ts:394-421 | the variable loop stops only on BEGIN and only adds declarations |
| Grammar.ParseDeclarationLine | modules/parser.ts:395-420 | a declaration line consumes at least one token |
| Grammar.ParseNames | modules/parser.ts:395-404 | a line declares at least one name |
| Grammar.NamesFrom | modules/parser.ts:399-404 | the name loop stops on a token other than a comma |
| Grammar.Declarations | modules/parser.ts:416-418 | one declaration per name, in order, all with the line's type and size |
| Grammar.ParseType | modules/parser.ts:427-457 | exactly one type keyword is consumed, and it gives one of the five value types |
| Grammar.ParseCompound | modules/parser.ts:461-471 | a compound stops only on EOF or one of its end tokens |
| Grammar.CompoundFrom | modules/parser.ts:465-468 | the statement loop stops only on EOF or an end token and only adds statements |
| Grammar.ParseStatement | modules/parser.ts:473-526 | a statement consumes at least its keyword |
| Grammar.StatementKindCases | modules/parser.ts:474-483 | the statement keywords are exactly LET, PRINT, IF, WHILE, FOR, REPEAT, SWITCH and RESIZE |
| Grammar.ParseAssign | modules/parser.ts:528-544 | an assignment consumes tokens |
| Grammar.ParsePrint | modules/parser.ts:546-554 | a PRINT has at least one value |
| Grammar.PrintFrom | modules/parser.ts:548-551 | the value loop stops on a token other than a comma |
| Grammar.ParseIf | modules/parser.ts:556-572 | an IF consumes tokens |
| Grammar.ParseElse | modules/parser.ts:563-566 | without ELSE nothing is consumed |
| Grammar.ParseWhile | modules/parser.ts:574-583 | a WHILE consumes tokens |
| Grammar.ParseFor | modules/parser.ts:585-606 | a FOR consumes tokens |
| Grammar.ParseStep | modules/parser.ts:595-599 | without STEP the step is the integer literal 1 and nothing is consumed |
| Grammar.ParseRepeat | modules/parser.ts:608-617 | a REPEAT consumes tokens |
| Grammar.ParseSwitch | modules/parser.ts:619-648 | a SWITCH consumes tokens |
| Grammar.CasesFrom | modules/parser.ts:626-634 | the case loop stops on a token other than CASE and only adds cases |
| Grammar.ParseDefault | modules/parser.ts:636-644 | without DEFAULT there is no fallback and nothing is consumed |
| Grammar.ParseResize | modules/parser.ts:650-657 | a RESIZE consumes tokens |
| Grammar.ParseExpression | modules/parser.ts:661-672 | an expression consumes tokens |
| Grammar.ExpressionFrom | modules/parser.ts:664-669 | the AND/OR loop stops on a token that is neither |
| Grammar.ExpressionStep | modules/parser.ts:665-668 | one AND/OR turn consumes the operator and its operand |
| Grammar.ParseComparison | modules/parser.ts:674-694 | a comparison consumes tokens |
| Grammar.ComparisonFrom | modules/parser.ts:685-691 | the walk over the operator list stays inside the stream |
| Grammar.ComparisonStep | modules/parser.ts:686-690 | one turn of the walk stays inside the stream |
| Grammar.ParseAddition | modules/parser.ts:696-708 | an addition consumes tokens |
| Grammar.AdditionFrom | modules/parser.ts:700-705 | the `+ - &` loop stops on a token that is none of them |
| Grammar.AdditionStep | modules/parser.ts:701-704 | one turn consumes the operator and its operand |
| Grammar.ParseMultiply | modules/parser.ts:710-722 | a multiplication consumes tokens |
| Grammar.MultiplyFrom | modules/parser.ts:714-719 | the `* / %` loop stops on a token that is none of them |
| Grammar.MultiplyStep | modules/parser.ts:715-718 | one turn consumes the operator and its operand |
| Grammar.BinaryOperator | modules/parser.ts:664-718 | every operator token of the binary levels names a binary operator |
| Grammar.ParseExponent | modules/parser.ts:724-744 | an exponent chain consumes tokens |
| Grammar.ExponentsFrom | modules/parser.ts:727-730 | the `^` loop stops on a token other than `^` and only appends operands |
| Grammar.ParsePrimary | modules/parser.ts:746-803 | a primary consumes tokens |
| Grammar.PrimaryKindCases | modules/parser.ts:747-759 | the kinds a primary starts with are exactly the eleven in the list |
| Grammar.ParseSymbol | modules/parser.ts:805-815 | a symbol node keeps the name it was given |
| Grammar.ParseIndex | modules/parser.ts:808-812 | without `[` the index is the null value node and nothing is consumed |
| Grammar.PointAt | modules/parser.ts:766-769 | the position found is the first `.` of a number lexeme, or its end |
| GrammarFacts.MatchAdvancesOne | modules/parser.ts:290-301 | `match` consumes exactly one token on the expected kind, surfaces a lexing failure at the end, and otherwise fails naming both kinds |
| GrammarFacts.MatchListConsumes | modules/parser.ts:303-320 | `matchList` consumes one token of a listed kind and returns it, and otherwise fails naming the list |
| GrammarFacts.ParseNeedsEof | modules/parser.ts:324-333 | `parse` returns the program exactly when EOF follows it; any other token is a syntax error |
| GrammarFacts.ExponentsPrefix | modules/parser.ts:727-730 | the `^` loop only appends to what it collected before |
| GrammarFacts.ExponentsTurn | modules/parser.ts:727-730 | one turn of the `^` loop consumes the `^` and one primary, or fails as that primary fails |
| GrammarFacts.ExponentRightNested | modules/parser.ts:724-744 | `^` is right-associative: `x ^ rest` is `x` raised to the whole exponent that follows the `^` |
| GrammarFacts.AdditionLeftNested | modules/parser.ts:696-708 | `+ - &` chains nest to the left: each operator takes everything before it as its left operand |
| GrammarFacts.MultiplyLeftNested | modules/parser.ts:710-722 | `* / %` chains nest to the left |
| GrammarFacts.ExpressionLeftNested | modules/parser.ts:661-672 | AND and OR share one level and nest to the left |
| GrammarFacts.ComparisonOnceEach | modules/parser.ts:674-694 | each of `== != > >= < <=` is applied at most once and in list order, so `a < b == c` does not parse as a chain |
| GrammarFacts.ComparisonStepShape | modules/parser.ts:686-690 | a turn of the walk leaves the operand alone or applies the `k`-th operator to it |
| GrammarFacts.NotTakesComparison | modules/parser.ts:786-787 | NOT takes a whole comparison as its operand |
| GrammarFacts.SignTakesPrimary | modules/parser.ts:789-793 | unary `+` and `-` take a single primary |
| GrammarFacts.NamesInOrder | modules/parser.ts:399-404 | the names after the first are each a comma and an identifier, in source order |
| GrammarFacts.NamesShape | modules/parser.ts:395-404 | the names of a line are the identifiers at every second token, separated by commas |
| GrammarFacts.DeclarationLineShape | modules/parser.ts:395-420 | every parsed declaration line is `a, b : T [size]`: one declaration per name, in order, all with the type of the keyword and the same size |
| Parsing.Parser.constructor | modules/parser.ts:261-266 | the cursor starts on the first token of the stream |
| Parsing.Parser.NextToken | modules/parser.ts:272-274 | the cursor moves as `Advance` says |
| Parsing.Parser.Match | modules/parser.ts:290-301 | follows `Expect` |
| Parsing.Parser.MatchList | modules/parser.ts:303-320 | follows `ExpectOneOf` |
| Parsing.Parser.Newline | modules/parser.ts:819-825 | follows `ParseNewline` |
| Parsing.Parser.Parse | modules/parser.ts:324-333 | follows `Parse` |
| Parsing.Parser.Program | modules/parser.ts:337-354 | follows `ParseProgram` |
| Parsing.Parser.Declare | modules/parser.ts:358-363 | follows `ParseDeclare` |
| Parsing.Parser.Constant | modules/parser.ts:365-385 | follows `ParseConstants` |
| Parsing.Parser.Variable | modules/parser.ts:387-425 | follows `ParseVariables` |
| Parsing.Parser.DeclarationLine | modules/parser.ts:395-420 | follows `ParseDeclarationLine` |
| Parsing.Parser.Names | modules/parser.ts:395-404 | follows `ParseNames` |
| Parsing.Parser.TypeName | modules/parser.ts:427-457 | follows `ParseType` |
| Parsing.Parser.Compound | modules/parser.ts:461-471 | follows `ParseCompound` |
| Parsing.Parser.Statement | modules/parser.ts:473-526 | follows `ParseStatement` |
| Parsing.Parser.AssignStmt | modules/parser.ts:528-544 | follows `ParseAssign` |
| Parsing.Parser.PrintStmt | modules/parser.ts:546-554 | follows `ParsePrint` |
| Parsing.Parser.IfStmt | modules/parser.ts:556-572 | follows `ParseIf` |
| Parsing.Parser.ElsePart | modules/parser.ts:563-566 | follows `ParseElse` |
| Parsing.Parser.WhileStmt | modules/parser.ts:574-583 | follows `ParseWhile` |
| Parsing.Parser.ForStmt | modules/parser.ts:585-606 | follows `ParseFor` |
| Parsing.Parser.Step | modules/parser.ts:595-599 | follows `ParseStep` |
| Parsing.Parser.RepeatStmt | modules/parser.ts:608-617 | follows `ParseRepeat` |
| Parsing.Parser.SwitchStmt | modules/parser.ts:619-648 | follows `ParseSwitch` |
| Parsing.Parser.Cases | modules/parser.ts:626-634 | follows `CasesFrom` |
| Parsing.Parser.Default | modules/parser.ts:636-644 | follows `ParseDefault` |
| Parsing.Parser.ResizeStmt | modules/parser.ts:650-657 | follows `ParseResize` |
| Parsing.Parser.Expression | modules/parser.ts:661-672 | follows `ParseExpression` |
| Parsing.Parser.JoinComparison | modules/parser.ts:665-668 | follows `ExpressionStep` |
| Parsing.Parser.Comparison | modules/parser.ts:674-694 | follows `ParseComparison` |
| Parsing.Parser.JoinAddition | modules/parser.ts:686-690 | follows `ComparisonStep` |
| Parsing.Parser.Addition | modules/parser.ts:696-708 | follows `ParseAddition` |
| Parsing.Parser.JoinMultiply | modules/parser.ts:701-704 | follows `AdditionStep` |
| Parsing.Parser.Multiply | modules/parser.ts:710-722 | follows `ParseMultiply` |
| Parsing.Parser.JoinExponent | modules/parser.ts:715-718 | follows `MultiplyStep` |
| Parsing.Parser.Exponent | modules/parser.ts:724-744 | follows `ParseExponent`; the fold runs from the last operand backwards |
| Parsing.Parser.Primary | modules/parser.ts:746-803 | follows `ParsePrimary` |
| Parsing.Parser.Symbol | modules/parser.ts:805-815 | follows `ParseSymbol` |
| Parsing.Parser.Index | modules/parser.ts:808-812 | follows `ParseIndex` |
| Parsing.DeclareEach | modules/parser.ts:416-418 | the loop yields `Declarations` of the names |
| Parsing.Tokenize | modules/lexer.ts:76-241 | calling `nextToken` until EOF or a failure collects exactly `Lex` from the start |
| Parsing.ParseSource | modules/parser.ts:261-333 | the parser over the scanner's tokens gives the grammar's reading of `Lex` from the start |
| Symbols.Lookup | modules/interpreter.ts:36-43 | `get`: the entry of a declared name, or the not-declared error |
| Symbols.Assigned | modules/interpreter.ts:45-52 | the map `set` leaves; `Symbols.AssignedMeaning` states it |
| Symbols.WithArray | modules/interpreter.ts:54-61 | the map `initArray` leaves; `Symbols.WithArrayMeaning` states it |
| Symbols.Slot | modules/interpreter.ts:63-82 | `getArray`: the slot at a 1-based index, with its three errors in the source's order; `Symbols.SlotWrittenMeaning` relates it to writes |
| Symbols.SlotWritten | modules/interpreter.ts:84-99 | the map `setArray` leaves; `Symbols.SlotWrittenMeaning` states it |
| Symbols.SymbolTable.constructor | modules/interpreter.ts:21-24 | the table starts empty |
| Symbols.SymbolTable.Has | modules/interpreter.ts:32-34 | true exactly when the name is declared |
| Symbols.SymbolTable.Get | modules/interpreter.ts:36-43 | the entry of a declared name, or not-declared |
| Symbols.SymbolTable.Set | modules/interpreter.ts:45-52 | fails on a constant and leaves the table alone; otherwise the table is `Assigned` |
| Symbols.SymbolTable.InitArray | modules/interpreter.ts:54-61 | the table is `WithArray`: `size` empty slots under the name |
| Symbols.SymbolTable.GetArray | modules/interpreter.ts:63-82 | the slot at a 1-based index, with the not-declared, not-an-array and out-of-bounds errors in that order |
| Symbols.SymbolTable.SetArray | modules/interpreter.ts:84-99 | the table is `SlotWritten`, or unchanged with the error |
| Symbols.AssignedMeaning | modules/interpreter.ts:45-52 | `set` fails exactly on a constant; otherwise the name reads back as the new scalar and every other name is unchanged |
| Symbols.WithArrayMeaning | modules/interpreter.ts:54-61 | a new array has exactly `size` empty slots, is not constant, and leaves other names alone |
| Symbols.SlotWrittenMeaning | modules/interpreter.ts:63-99 | a slot can be written exactly where it can be read; the slot then reads back the value, and every other slot, name, length, type and constness is unchanged |
| Symbols.UpdatesKeepTypes | modules/interpreter.ts:45-99 | every table update keeps each stored value in agreement with its entry's type, given the written value fits |
| Values.Typecast | modules/interpreter.ts:120-130 | `typecast`; `ValueFacts.TypecastKeepsTruth` states its meaning |
| Values.Unary | modules/interpreter.ts:422-436 | the UNARY case; `ValueFacts.UnaryMeaning` states it |
| Values.Binary | modules/interpreter.ts:196-420 | the BINARY case once both operands are known; `ValueFacts.ArithTyping`, `ModNeedsInts`, `ConcatJoins`, `EqualityAcrossFamilies`, `NumberOrdering` and `AndOrTruth` state it operator by operator |
| Values.IntArith | modules/interpreter.ts:220-295 | `+ - * / ^` on two INT_TYPE operands; `ValueFacts.IntArithExact`, `IntDivisionTruncates` and `IntPowAdds` state it |
| Values.FloatArith | modules/interpreter.ts:220-295 | `+ - * / ^` with a FLOAT_TYPE operand, on exact reals; `ValueFacts.ArithTyping` states its result type |
| Values.TruncDiv | modules/interpreter.ts:265-270 | `Math.trunc(a / b)`; `ValueFacts.TruncDivRem` states it |
| Values.JsRem | modules/interpreter.ts:296-304 | JavaScript `%` on integers; `ValueFacts.TruncDivRem` states it |
| Values.SameFamilyEqual | modules/interpreter.ts:318-353 | `==` within the number, text and boolean families; `ValueFacts.EqualityAcrossFamilies` states it |
| Values.Order | modules/interpreter.ts:354-417 | the four ordering tests; `ValueFacts.NumberOrdering` states them on numbers |
| ValueFacts.TypecastKeepsTruth | modules/interpreter.ts:120-130 | typecast keeps truthiness, gives BOOL_TYPE exactly for numbers and texts, leaves other values alone, and is idempotent |
| ValueFacts.TruncDivRem | modules/interpreter.ts:265-304 | integer division and remainder truncate toward zero: they recombine to the dividend, and the remainder is smaller than the divisor with the dividend's sign |
| ValueFacts.TruncationDiffers | modules/interpreter.ts:265-304 | the source's `/` and `%` differ from Euclidean division on negative operands |
| ValueFacts.IntDivisionTruncates | modules/interpreter.ts:265-304 | INT_TYPE `/` and `%` with a non-zero divisor give the truncated quotient and remainder |
| ValueFacts.ArithTyping | modules/interpreter.ts:220-295 | `+ - * / ^` are rejected as invalid exactly when the operands are neither two INT_TYPE values nor include a FLOAT_TYPE; two INT_TYPE operands give INT_TYPE, a FLOAT_TYPE operand gives FLOAT_TYPE, and integer `+ - *` always succeed |
| ValueFacts.IntArithExact | modules/interpreter.ts:220-264 | integer sum, difference and product are exact |
| ValueFacts.ModNeedsInts | modules/interpreter.ts:296-305 | `%` fails exactly when an operand is not INT_TYPE |
| ValueFacts.ConcatJoins | modules/interpreter.ts:306-317 | `&` joins two texts into a STR_TYPE and rejects anything else |
| ValueFacts.EqualityAcrossFamilies | modules/interpreter.ts:318-353 | `==` and `!=` never fail and always disagree; across type families `==` is false; an ordering operator can only fail as an invalid expression |
| ValueFacts.ArraysNeverEqual | modules/interpreter.ts:318-335 | a whole array is not equal even to itself |
| ValueFacts.NumberOrdering | modules/interpreter.ts:354-417 | on numbers `>`/`<` and `>=`/`<=` mirror each other, and `>=` is the negation of `<` |
| ValueFacts.AndOrTruth | modules/interpreter.ts:202-219 | AND and OR combine the typecast truth of both operands |
| ValueFacts.UnaryMeaning | modules/interpreter.ts:422-436 | NOT negates the coerced truth; unary `+` is the identity; unary `-` keeps a number's type, negates it and undoes itself |
| ValueFacts.IntPowAdds | modules/interpreter.ts:281-295 | integer powers add their exponents |
| Semantics.Eval | modules/interpreter.ts:196-480 | the BINARY, UNARY, VALUE and SYMBOL cases, operands left to right; `ExecFacts.ReadHasEntryType` and the `ValueFacts` lemmas state its parts |
| Semantics.Read | modules/interpreter.ts:442-480 | a symbol read once its index is known; `SemanticsFacts.ReadRules` states it |
| Semantics.Coerce | modules/interpreter.ts:486-500 | fitting a value to a declared type; `SemanticsFacts.CoerceMeaning` states it |
| Semantics.DeclareConstant | modules/interpreter.ts:151-162 | one CONSTANT; `SemanticsFacts.ConstantsDeclared` states it |
| Semantics.DeclareVariable | modules/interpreter.ts:164-187 | one VARIABLE; `SemanticsFacts.VariableDeclared` states it |
| Semantics.DeclareAll | modules/interpreter.ts:140-149 | DECLARE; `SemanticsFacts.DeclareAllSeparates` states it |
| Semantics.ExecAssign | modules/interpreter.ts:482-519 | ASSIGN; `SemanticsFacts.AssignWhole` and `AssignSlot` state it |
| Semantics.Store | modules/interpreter.ts:502-517 | the write that ends an ASSIGN; `SemanticsFacts.AssignWhole` and `AssignSlot` state it |
| Semantics.ExecPrint | modules/interpreter.ts:521-531 | PRINT adds one line holding the values in order |
| Semantics.ExecResize | modules/interpreter.ts:635-658 | RESIZE; `SemanticsFacts.ResizeMeaning` states it |
| Semantics.ExecBlock | modules/interpreter.ts:189-194 | the statements of a compound in order; `ExecFacts.BlockKeepsTypes` and `BlockFuel` state what it keeps |
| Semantics.Exec | modules/interpreter.ts:132-658 | one statement; `ExecFacts.ExecKeepsTypes` and `ExecFuel` state what it keeps |
| Semantics.WhileLoop | modules/interpreter.ts:546-558 | WHILE, testing before every round; `ExecFacts.WhileKeepsTypes` and `WhileFuel` state what it keeps |
| Semantics.ForLoop | modules/interpreter.ts:560-596 | the FOR rounds; `SemanticsFacts.ForCounterEnds` and `ForNonPositiveStepRunsOut` state where they end |
| Semantics.RepeatLoop | modules/interpreter.ts:598-608 | REPEAT, testing after every round; `SemanticsFacts.RepeatIsBodyThenWhile` states it |
| Semantics.ExecProgram | modules/interpreter.ts:134-138 | PROGRAM from an empty table; `ExecFacts.ProgramKeepsTypes` and `ProgramFuel` state what it keeps |
| Semantics.Choose | modules/interpreter.ts:610-628 | a chosen case is one of the cases from the starting one on |
| SemanticsFacts.ConstantErrorOrder | modules/interpreter.ts:151-161 | a taken name fails before the value is evaluated; for a new name an evaluation error is passed on, and otherwise the name becomes a constant scalar of the value's type |
| SemanticsFacts.ConstantsDeclared | modules/interpreter.ts:140-162 | successful constant declarations had fresh, distinct names, and the table keeps every old entry plus exactly those names |
| SemanticsFacts.VariableDeclared | modules/interpreter.ts:164-187 | a variable declaration succeeds exactly when its size evaluates to nothing or to a positive INT_TYPE and the name is new; a taken name fails after the size is evaluated; the new entry is an empty scalar or an array of that many empty slots, of the declared type and not constant |
| SemanticsFacts.VariablesDeclared | modules/interpreter.ts:140-187 | successful variable declarations had fresh, distinct names, each now a non-constant entry of the declared type |
| SemanticsFacts.DeclareAllSeparates | modules/interpreter.ts:140-149 | a successful DECLARE adds exactly the constant and variable names and changes nothing else; no variable is named like a constant; every constant name is constant and every variable name is not |
| SemanticsFacts.CoerceMeaning | modules/interpreter.ts:481-519 | fitting a value to a declared type: BOOL_TYPE takes anything and keeps its truth, FLOAT_TYPE also takes INT_TYPE, and otherwise types must match or the mismatch is reported |
| SemanticsFacts.AssignWhole | modules/interpreter.ts:481-519 | an assignment without an index checks that the name exists (before the value is evaluated), that the value fits, that the name is not an array and that it is not a constant, in that order; it then replaces that one entry, which reads back the fitted value |
| SemanticsFacts.AssignSlot | modules/interpreter.ts:481-519 | an assignment to slot `k` succeeds exactly when the name is an array with slot `k` and the value fits; only that slot changes |
| SemanticsFacts.ReadRules | modules/interpreter.ts:441-480 | an indexed read needs an INT_TYPE index naming a slot with a value; an unindexed read gives the scalar, or the array's present elements |
| SemanticsFacts.PresentMeaning | modules/interpreter.ts:441-480 | a whole array reads as its elements that hold a value, in order: no empty slot shows, and nothing is invented |
| SemanticsFacts.ResizeMeaning | modules/interpreter.ts:634-658 | RESIZE succeeds exactly on an existing array and a positive INT_TYPE size; old values that fit are kept and new slots are empty |
| SemanticsFacts.ResizeErrorOrder | modules/interpreter.ts:635-647 | RESIZE fails with not-declared, then the size's evaluation error, then not-an-array, then the size error, in that order |
| SemanticsFacts.ForErrorOrder | modules/interpreter.ts:560-590 | FOR fails with not-declared, is-an-array and the counter's type error before evaluating anything; then start, bound and step are all evaluated before their type errors, checked in that order; otherwise the rounds run from the start |
| SemanticsFacts.ForNeedsIntegers | modules/interpreter.ts:559-596 | a FOR that runs had a declared, non-array INT_TYPE counter and INT_TYPE bounds and step |
| SemanticsFacts.ForCounterEnds | modules/interpreter.ts:559-596 | with a positive step and enough fuel, an empty FOR leaves the counter at the last value not past the bound |
| SemanticsFacts.ForNonPositiveStepRunsOut | modules/interpreter.ts:559-596 | with a step that is not positive, a FOR whose first round runs never ends |
| SemanticsFacts.ChooseFirst | modules/interpreter.ts:610-628 | the chosen case is the first whose value equals the subject: every case before it evaluates to something else |
| SemanticsFacts.SwitchRunsFirstMatch | modules/interpreter.ts:610-633 | SWITCH runs the body of the first equal case and nothing else; with no equal case it runs the default, or nothing |
| SemanticsFacts.RepeatIsBodyThenWhile | modules/interpreter.ts:597-608 | for a condition whose typecast is always a boolean (`Boolean`), REPEAT body UNTIL c is the body once, then WHILE NOT c, round for round |
| ExecFacts.ReadHasEntryType | modules/interpreter.ts:441-480 | in a well-typed table a successful read has the type its entry reports |
| ExecFacts.DeclareKeepsTypes | modules/interpreter.ts:140-187 | DECLARE keeps every stored value in agreement with its entry's type |
| ExecFacts.ConstantsKeepTypes | modules/interpreter.ts:151-162 | the CONSTANT declarations keep every stored value in agreement with its entry's type, by induction over the list |
| ExecFacts.VariablesKeepTypes | modules/interpreter.ts:164-187 | so do the VARIABLE declarations |
| ExecFacts.AssignKeepsTypes | modules/interpreter.ts:481-519 | so does ASSIGN |
| ExecFacts.ResizeKeepsTypes | modules/interpreter.ts:634-658 | so does RESIZE |
| ExecFacts.ExecKeepsTypes | modules/interpreter.ts:132-658 | so does every statement |
| ExecFacts.BlockKeepsTypes | modules/interpreter.ts:189-194 | so does a compound, statement by statement |
| ExecFacts.WhileKeepsTypes | modules/interpreter.ts:546-558 | so does a WHILE, round by round |
| ExecFacts.ForKeepsTypes | modules/interpreter.ts:560-596 | so does a FOR, whose counter writes an INT_TYPE into an INT_TYPE entry |
| ExecFacts.RepeatKeepsTypes | modules/interpreter.ts:598-608 | so does a REPEAT |
| ExecFacts.ProgramKeepsTypes | modules/interpreter.ts:134-138 | after a successful run every value in the table agrees with its entry's type |
| ExecFacts.ExecFuel | modules/interpreter.ts:545-608 | more fuel never changes a statement's outcome that did not run out of fuel |
| ExecFacts.BlockFuel | modules/interpreter.ts:189-194 | more fuel never changes a compound's outcome that did not run out of fuel |
| ExecFacts.WhileFuel | modules/interpreter.ts:546-558 | the same for a WHILE |
| ExecFacts.ForFuel | modules/interpreter.ts:560-596 | the same for a FOR |
| ExecFacts.RepeatFuel | modules/interpreter.ts:598-608 | the same for a REPEAT |
| ExecFacts.ProgramFuel | modules/interpreter.ts:134-138 | the same for a whole program |
| Interpreting.Interpreter.constructor | modules/interpreter.ts:106-109 | a fresh interpreter has an empty table and has printed nothing |
| Interpreting.Interpreter.Interpret | modules/interpreter.ts:115-118 | follows `ExecProgram` |
| Interpreting.Interpreter.Declarations | modules/interpreter.ts:140-149 | follows `DeclareAll` |
| Interpreting.Interpreter.Constant | modules/interpreter.ts:151-162 | follows `DeclareConstant` |
| Interpreting.Interpreter.Variable | modules/interpreter.ts:164-187 | follows `DeclareVariable` |
| Interpreting.Interpreter.Compound | modules/interpreter.ts:189-194 | follows `ExecBlock` |
| Interpreting.Interpreter.Statement | modules/interpreter.ts:132-658 | follows `Exec` |
| Interpreting.Interpreter.Evaluate | modules/interpreter.ts:196-480 | the value is `Eval`, and nothing changes |
| Interpreting.Interpreter.AssignStmt | modules/interpreter.ts:481-519 | follows `ExecAssign` |
| Interpreting.Interpreter.Store | modules/interpreter.ts:495-517 | follows `Store` |
| Interpreting.Interpreter.PrintStmt | modules/interpreter.ts:521-531 | follows `ExecPrint` |
| Interpreting.Interpreter.IfStmt | modules/interpreter.ts:533-544 | follows `Exec` of the IF |
| Interpreting.Interpreter.WhileStmt | modules/interpreter.ts:546-558 | follows `Exec` of the WHILE |
| Interpreting.Interpreter.ForStmt | modules/interpreter.ts:560-596 | follows `Exec` of the FOR |
| Interpreting.Interpreter.RepeatStmt | modules/interpreter.ts:598-608 | follows `Exec` of the REPEAT |
| Interpreting.Interpreter.SwitchStmt | modules/interpreter.ts:610-633 | follows `Exec` of the SWITCH |
| Interpreting.Interpreter.ResizeStmt | modules/interpreter.ts:635-658 | follows `ExecResize` |
| Interpreting.PresentValues | modules/interpreter.ts:455-461 | the loop collects exactly `Present` of the slots |
| Interpreting.RunSource | main.ts:7-20 | the printed lines, or the first error, of lexing, parsing and interpreting the text |

## Left out

- Console I/O: `console.log` output is the list of printed value lines in `State.output`, and reading the source file is a parameter. The textual rendering of values (number formatting, `[a, b]` for a whole array) is not modelled: a whole-array read is `ArrV` of its present elements.
- The clock: the compilation time `main.ts` prints after the run is not modelled.
- Output printed before an error: `Outcome` returns only the error; the lines printed before it are not part of the failure result.
- Floating point: FLOAT_TYPE values are exact reals, so rounding, `Infinity` and `NaN` are not modelled; `Number(lexeme)` of a float is its exact decimal value.
- Values.FloatArith: a FLOAT_TYPE power is computed only for a whole, non-negative exponent, and a FLOAT_TYPE division by zero is not computed. Both stop with `Unmodelled`, although the source's doubles (`2.0 ^ 0.5`, `2.0 ^ -1`, `1.0 / 0`) fit FLOAT_TYPE.
- Values.IntArith: INT_TYPE values are exact unbounded integers, while the source computes them as JavaScript doubles. So the model does not capture the loss of precision above 2^53, the rounding of `a / b` before `Math.trunc` (Values.TruncDiv), or a power such as `2 ^ 1024` becoming `Infinity` under INT_TYPE (Values.IntPow).
- Values.Binary: any `+ - * / ^` with a FLOAT_TYPE operand and a CHAR_TYPE or STR_TYPE operand stops with `Unmodelled`, even where the source's JavaScript value is a number that fits FLOAT_TYPE (`1.5 - "2"` gives -0.5, `2.0 * '3'` gives 6). The model does not convert text to a number, so none of these results are modelled.
- `localeCompare` on texts is a parameter `collate` of the evaluator.
- Values that do not fit their tag: where the source forms a (value, type) pair whose JavaScript value does not fit its tag, the model stops with the extra error `Unmodelled`. Examples are a number added to a text under FLOAT_TYPE, a negated text or boolean, an INT_TYPE division or remainder by zero, an INT_TYPE power with a negative exponent, and a BOOL_TYPE slot given a whole array.
- Non-termination: every loop round spends one unit of `fuel`, and a run that needs more stops with `OutOfFuel`. `ExecFacts.ExecFuel` shows that the amount of fuel matters only for that outcome.
- Error messages: each error is a constructor of `Errors.Error` carrying the facts the message names, not its text.
- Exceptions: the source throws and stops; the model returns the first error as a `Fail`.
- Tokenize: the source's parser pulls tokens lazily. The model scans the whole stream first, and a lexing failure surfaces exactly when the parser advances onto it.
- Lexer.CharLit, Lexer.Lexer.ReadChar, LexerFacts.CharToken: the model reads the program text as a sequence of Unicode scalar values, while the source indexes UTF-16 code units (modules/lexer.ts:57-74). A character above U+FFFF is one character in the model and two code units in the source. So a char literal holding such a character (`'😀'`) is accepted as a CHAR_TYPE token, where the source fails with InvalidChar (modules/lexer.ts:182-186). For the same reason an unknown character above U+FFFF is one UNKNOWN token in the model, where the source takes its high surrogate alone.
- Lexer.CommentEnd, Lexer.StringEnd, Lexer.Lexer.SkipComment, Lexer.Lexer.ReadString, LexerFacts.CommentIsSkipped and LexerFacts.StringToken: the source's comment loop (modules/lexer.ts:41) and string loop (modules/lexer.ts:171) never stop on an unterminated comment or string at the end of the input. The model stops there: the comment ends, so the next scan yields EOF, and the string fails with `UnterminatedString`.
- Lexer.Lexer.SkipComment: its loop stops at the end of the input, where the source's never ends (see Lexer.CommentEnd).
- Lexer.Lexer.ReadString: an unterminated string fails, where the source's loop never ends (see Lexer.StringEnd).
- LexerFacts.CommentIsSkipped: its end-of-input half yields EOF, where the source never returns (see Lexer.CommentEnd).
- LexerFacts.StringToken: its failure half has no counterpart in the source, which never returns (see Lexer.StringEnd).
- SymbolTable.print (modules/interpreter.ts:26-30) is a debugging dump and is not part of this model.
- Semantics.Choose: the source matches a case when `switchValue == value` and the types are equal (modules/interpreter.ts:617). The model compares value and type structurally, which agrees with `==` on numbers, texts and booleans of one type. A whole array is the exception: the source compares its rendered text `[a, b]`, the model its elements. So INT [1] against FLOAT [1], CHAR ['a'] against STR ["a"], and ["a, b"] against ["a", "b"] match in the source but not in the model. SemanticsFacts.ChooseFirst and SemanticsFacts.SwitchRunsFirstMatch inherit this.
- ResizeStmt builds the new array as a sequence and writes it back with one table update; slot-by-slot copying into a JavaScript array is not modelled.
- Semantics.ExecAssign: when an ARR value is assigned to a BOOL_TYPE name, the source changes the entry's type to ARR_TYPE; the model does the same. The entry's declared type is overwritten by the value's type.
- Symbols.SlotWritten: `setArray` on an undeclared name is reported as "not an array", since the source never checks whether the name exists.
