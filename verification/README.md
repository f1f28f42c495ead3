# AnuragLang in Dafny

AnuragLang is a small interpreted language. Its implementation has three stages:

- `ang_modules/lexer.py` turns source text into tokens.
- `ang_modules/parser.py` turns tokens into a tree of statement and expression nodes.
- `ang_modules/interpreter.py` walks that tree over two tables: a table of variables and a table of functions.

This project models the three stages and proves properties of them.

Each stage is written twice:

- once as pure functions of the input, the specification;
- once in the source's own imperative form, with each method proved to compute exactly what its function says.

The imperative forms are these:

- a `Lexer` class whose position and token list are fields;
- a `Parser` class with a cursor that only moves forward;
- an `Interpreter` class whose variable table, function table, output and input position are fields, updated in place.

| file | module | contents |
|---|---|---|
| `wrappers.dfy` | `Wrappers` | `Option` and `Result`; `:-` plays the part of a raised exception |
| `lexer.dfy` | `Lexing` | The token kinds and the ordered pattern table `TokenTypes`. ASCII matchers stand in for the regular expressions. The scan specification `Scan`/`FirstMatch`, and the `Lexer` class. |
| `lexer_facts.dfy` | `LexingFacts` | First match wins, `EQ` is never emitted, tokens come in source order, and how comments, blanks and errors are handled |
| `parser.dfy` | `Parsing` | The `Expr`/`Stmt` tree, the grammar as functions `XAt(tokens, pos)`, and the `Parser` class |
| `parser_facts.dfy` | `ParsingFacts` | Statement selection, no precedence, suffixes, lists, blocks, `otherwise` |
| `values.dfy` | `Values` | Run-time values, errors, truthiness, `==`, `apply_binary_operator`, subscripts, `int()` |
| `values_facts.dfy` | `ValuesFacts` | Equality, comparisons, subscript ranges, decimal round trip |
| `evaluation.dfy` | `Evaluation` | The evaluation semantics as functions of a `State`, bounded by fuel |
| `evaluation_facts.dfy` | `EvaluationFacts` | Assignment, declarations, binding, call isolation, `return`, `incase`, `while`, `take` |
| `fuel_facts.dfy` | `FuelFacts` | A run that does not run out of fuel has the same outcome under every larger budget |
| `interpreter.dfy` | `Interpreting` | The `Interpreter` class |

`produce` appends a value to an output sequence. `take` reads the next line of a given input sequence. Every call and every `while` iteration spends one unit of `fuel`. When the fuel runs out, the run ends with `OutOfFuel`; every other outcome is the same under any larger budget. An error ends the run and carries the state in which it was raised, so what was printed before it stays in the output.

Where the code differs from what the language's documentation describes, the model follows the code:

- **`==` never becomes `EQ`.** The documentation says `==` lexes as one `EQ` token. The table tries `ASSIGN` (`=`, line 17) before `EQ` (line 31), and the first match wins. So `==` lexes as two `ASSIGN` tokens and `EQ` is never emitted (`EqualsEqualsIsTwoAssigns`, `EqNeverEmitted`).
- **Arguments come before the lookup.** The documentation looks the function up before it evaluates the arguments. The code does it the other way round, so an argument's error wins over an undefined function (`ArgumentsBeforeLookup`).
- **Binding is a `zip`.** Extra parameters are not "left unbound": they keep whatever value the caller's variable of that name had (`BindKeepsOthers`).
- **Calls keep their declarations.** A call restores only the variable table. Functions declared during the call remain declared (`DeclarationsInCallsPersist`).
- **`return` is local to the statement list that contains it.** The documentation propagates a `return` through the enclosing statement sequence. The code drops a `return` that sits inside an `incase` or `while` body (`NestedReturnIsDiscarded`).
- **The callee need not be a variable.** The documentation requires the callee to be a `Variable`. The code uses the callee node's second field as the key, so an indexed callee fails as an undefined function or as a type error.
- **Only comments advance the line.** The line counter increases only when a comment is skipped. A newline in whitespace advances the column instead (`ScanAtColumns`).
- **String values keep their quotes.** A `STRING` token's text is stored unchanged.

## Model

| member | source | states |
|---|---|---|
| Lexing.RunEndMaximal | ang_modules/lexer.py:14-15 | The run matched by `\d+`, `\w*` or `\s+` has only characters of its class and stops at the first character outside it |
| Lexing.StringEndSound | ang_modules/lexer.py:16 | A string match ends with `"`. Its body has no bare `"` or `\`, and each `\` escapes one non-newline character. |
| Lexing.StringEndExact | ang_modules/lexer.py:16 | Conversely, each closing quote that ends a valid body is the one the matcher finds |
| Lexing.MatchLengthSound | ang_modules/lexer.py:5-34 | A nonzero match length of a pattern covers a word of its regular expression, and that word cannot be extended |
| Lexing.MatchLengthComplete | ang_modules/lexer.py:5-34 | Each word of a pattern's language that cannot be extended at a position is exactly the match the matcher returns |
| Lexing.CommentEnd | ang_modules/lexer.py:63-64 | The comment skip stops at a newline or at the end of the text |
| Lexing.CommentEndSkipsNoNewline | ang_modules/lexer.py:63-64 | The characters the comment skip passes over include no newline |
| Lexing.FirstMatch | ang_modules/lexer.py:49-59 | A match found by the table walk is nonempty and lies within the text |
| Lexing.Emitted | ang_modules/lexer.py:54-56 | A match yields one token, or none exactly when it is whitespace |
| Lexing.ScanStep | ang_modules/lexer.py:47-68 | One step of the scan uses the first row that matches at the position; without a match, it is the comment skip or the error |
| Lexing.MatchLength | ang_modules/lexer.py:5-33 | The length one row's regular expression matches at a position, within the text; `MatchLengthSound` and `MatchLengthComplete` state that it is exactly that expression's match |
| Lexing.Scan | ang_modules/lexer.py:44-68 | The tokenize loop from a position, walking `TokenTypes` (ang_modules/lexer.py:5-34) in order; its properties are `ScanStep`, `ScanWellFormed`, `ScanInSourceOrder`, `ScanAtColumns` and `EqNeverEmitted` |
| Lexing.Lex | ang_modules/lexer.py:44-69 | `tokenize` from line 1, column 1: the tokens, or the unexpected-character error; `Lexer.Tokenize` computes it |
| Lexing.Lexer.constructor | ang_modules/lexer.py:37-42 | A new lexer holds the source and the table, has no tokens, and is at position 0 |
| Lexing.Lexer.MatchToken | ang_modules/lexer.py:49-59 | The inner loop appends the first matching row's token (none for whitespace) and moves the position and column past the match. Without a match, nothing changes. |
| Lexing.Lexer.SkipComment | ang_modules/lexer.py:63-64 | The position moves to the next newline or to the end; the tokens are unchanged |
| Lexing.Lexer.Tokenize | ang_modules/lexer.py:44-69 | The tokens appended and the result are those of `Scan` from line 1, column 1. On an error, the position is where the error occurred. |
| LexingFacts.FirstMatchAccepted | ang_modules/lexer.py:49-53 | The text of a match is a word of a row of the matched kind |
| LexingFacts.ScanWellFormed | ang_modules/lexer.py:53-56 | No emitted token is whitespace, and each token's text is exactly a word of its own kind's pattern |
| LexingFacts.ShadowedNeverEmitted | ang_modules/lexer.py:49-59 | A kind whose every word is matched first by an earlier row is never emitted |
| LexingFacts.EqNeverFirst | ang_modules/lexer.py:17-31 | `EQ` never wins a position, because `ASSIGN` comes earlier in the table |
| LexingFacts.EqNeverEmitted | ang_modules/lexer.py:17-31 | No token of the scan is `EQ` |
| LexingFacts.EqualsEqualsIsTwoAssigns | ang_modules/lexer.py:17-31 | `==` lexes as two `ASSIGN` tokens at consecutive columns |
| LexingFacts.ScanInSourceOrder | ang_modules/lexer.py:53-58 | Tokens come out in strictly increasing (line, column) order |
| LexingFacts.ScanAtColumns | ang_modules/lexer.py:45-58 | With no `#` anywhere in the rest of the text, every token stays on the starting line. Its column is its offset in the source, with newlines in whitespace counted as columns, and its text is the source text at that offset. |
| LexingFacts.AssignWins | ang_modules/lexer.py:17 | At `=` the first match is always `ASSIGN`, of length 1 |
| LexingFacts.KeywordWins | ang_modules/lexer.py:6-13 | At any of the eight keywords, the first match is that keyword's kind over exactly its letters, whatever follows |
| LexingFacts.NumberWins | ang_modules/lexer.py:14 | At a digit the first match is `NUMBER` over the whole run of digits |
| LexingFacts.IdentifierWins | ang_modules/lexer.py:15 | At a name character that begins no keyword, the first match is `IDENTIFIER` over the whole word |
| LexingFacts.BlanksWin | ang_modules/lexer.py:33 | At a blank the first match is `WHITESPACE` over every blank there, newlines included |
| LexingFacts.HashMatchesNothing | ang_modules/lexer.py:60-61 | No pattern matches at `#` |
| LexingFacts.UnterminatedMatchesNothing | ang_modules/lexer.py:16 | A `"` with no valid closing quote matches no pattern |
| LexingFacts.Emits | ang_modules/lexer.py:53-58 | A non-whitespace match emits its kind, its exact text, the line and the column, and the scan goes on past it |
| LexingFacts.EmitsTwo | ang_modules/lexer.py:53-58 | Two consecutive matches emit two tokens at columns that differ by the first token's length |
| LexingFacts.Skips | ang_modules/lexer.py:54-58 | A whitespace match emits nothing but still advances the column |
| LexingFacts.Unmatched | ang_modules/lexer.py:60-68 | With no match, a `#` skips to the newline on the next line at column 1; any other character is an error |
| LexingFacts.CommentSkipped | ang_modules/lexer.py:61-66 | A `#` skips to the newline, adds one to the line and resets the column to 1 |
| LexingFacts.BlanksSkipped | ang_modules/lexer.py:33 | Blanks are skipped with the line unchanged and the column advanced by their number |
| LexingFacts.KeywordThenName | ang_modules/lexer.py:6-15 | Keywords have no word boundary: any of the eight keywords followed by a letter or `_` that begins no keyword is that keyword's token then an `IDENTIFIER` (`assumex`, `returnb`) |
| LexingFacts.NumberThenName | ang_modules/lexer.py:14-15 | Digits followed by a letter or `_` that begins no keyword are `NUMBER` then `IDENTIFIER` (`12x`) |
| LexingFacts.UnterminatedStringFails | ang_modules/lexer.py:67-68 | An unterminated string is an unexpected-character error at its quote |
| LexingFacts.UnterminatedString | ang_modules/lexer.py:67-68 | `"xy` fails at position 0 |
| Parsing.ConsumeAt | ang_modules/parser.py:190-193 | `consume` succeeds only by stepping over exactly one token |
| Parsing.ExpressionAt | ang_modules/parser.py:109-110 | An expression takes at least one token and stays within the list |
| Parsing.TierAt | ang_modules/parser.py:112-134 | Each of the three tiers takes at least one token |
| Parsing.PrimaryAt | ang_modules/parser.py:136-170 | A primary expression takes at least one token |
| Parsing.StatementAt | ang_modules/parser.py:15-32 | A statement takes at least one token |
| Parsing.BlockAt | ang_modules/parser.py:103-107 | A block's end stays within the token list |
| Parsing.ProgramAt | ang_modules/parser.py:9-13 | The statement loop until the tokens run out; `Parser.Parse` computes it and then has consumed every token |
| Parsing.AssignmentStatementAt | ang_modules/parser.py:34-40 | Consumes at least one token; `StatementSelectedByFirstToken` states the assignment node it builds |
| Parsing.ProduceStatementAt | ang_modules/parser.py:42-48 | Consumes at least one token; `StatementSelectedByFirstToken` states the produce node it builds |
| Parsing.TakeStatementAt | ang_modules/parser.py:50-56 | Consumes at least one token; `StatementSelectedByFirstToken` states the take node it builds |
| Parsing.IncaseStatementAt | ang_modules/parser.py:58-70 | Consumes at least one token; `StatementSelectedByFirstToken` states the incase node and `IncaseNeedsOtherwise` the missing `otherwise` |
| Parsing.WhileStatementAt | ang_modules/parser.py:72-80 | Consumes at least one token; `StatementSelectedByFirstToken` states the while node it builds |
| Parsing.FunctionStatementAt | ang_modules/parser.py:82-95 | Consumes at least one token; `StatementSelectedByFirstToken` states the function node it builds |
| Parsing.ReturnStatementAt | ang_modules/parser.py:97-101 | Consumes at least one token; `StatementSelectedByFirstToken` states the return node it builds |
| Parsing.TierRestAt | ang_modules/parser.py:112-134 | The operator loop of a tier, within the token list; `TierRestStops` and `NoPrecedence` state where it stops and how it nests |
| Parsing.AccessAt | ang_modules/parser.py:141-156 | The suffixes after an identifier, within the token list; `AccessShape` and `PlainVariable` state the node |
| Parsing.CallAt | ang_modules/parser.py:147-155 | After the `(` of a call: the arguments and the closing `)`, so at least one token; `AccessShape` states the call node |
| Parsing.GroupAt | ang_modules/parser.py:157-160 | After `(`: an expression and the closing `)`, so at least one token |
| Parsing.ArrayAt | ang_modules/parser.py:161-169 | After `[`: the elements and the closing `]`, so at least one token; `ExpressionListEnds` states its empty and trailing-comma cases |
| Parsing.IndexesAt | ang_modules/parser.py:143-146 | The `[expr]` suffixes, within the token list; `IndexesNestLeftwards` states how they wrap the target |
| Parsing.ExpressionListAt | ang_modules/parser.py:148-154 | An argument or element list, within the token list; `ExpressionListEnds` and `ExpressionsStopWithoutComma` state where it ends |
| Parsing.ParametersAt | ang_modules/parser.py:86-90 | A parameter list, within the token list; `ParameterListEnds` states its empty and comma cases |
| Parsing.Parser.constructor | ang_modules/parser.py:4-7 | A new parser has its tokens and cursor 0 |
| Parsing.Parser.Advance | ang_modules/parser.py:200-203 | The cursor steps forward unless it is at the end; the result is the token before the cursor |
| Parsing.Parser.Match | ang_modules/parser.py:183-188 | The cursor advances, by exactly one, only when one of the listed kinds is next |
| Parsing.Parser.Consume | ang_modules/parser.py:190-193 | Yields the text of the expected token and advances; on a mismatch the error names the token found, and the cursor stays put |
| Parsing.Parser.Parse | ang_modules/parser.py:9-13 | Computes `ProgramAt`; on success every token has been consumed |
| Parsing.Parser.Statement | ang_modules/parser.py:15-32 | Computes `StatementAt`; the cursor never moves back and stays within the list |
| Parsing.Parser.AssignmentStatement | ang_modules/parser.py:34-40 | Computes `AssignmentStatementAt` |
| Parsing.Parser.ProduceStatement | ang_modules/parser.py:42-48 | Computes `ProduceStatementAt` |
| Parsing.Parser.TakeStatement | ang_modules/parser.py:50-56 | Computes `TakeStatementAt` |
| Parsing.Parser.IncaseStatement | ang_modules/parser.py:58-70 | Computes `IncaseStatementAt` |
| Parsing.Parser.WhileStatement | ang_modules/parser.py:72-80 | Computes `WhileStatementAt` |
| Parsing.Parser.FunctionStatement | ang_modules/parser.py:82-95 | Computes `FunctionStatementAt` |
| Parsing.Parser.Parameters | ang_modules/parser.py:86-90 | Computes `ParametersAt` |
| Parsing.Parser.ReturnStatement | ang_modules/parser.py:97-101 | Computes `ReturnStatementAt` |
| Parsing.Parser.Block | ang_modules/parser.py:103-107 | Computes `BlockAt` |
| Parsing.Parser.Expression | ang_modules/parser.py:109-110 | Computes `ExpressionAt` |
| Parsing.Parser.BinaryExpression | ang_modules/parser.py:112-118 | Computes the top tier |
| Parsing.Parser.Term | ang_modules/parser.py:120-126 | Computes the middle tier |
| Parsing.Parser.Factor | ang_modules/parser.py:128-134 | Computes the bottom tier |
| Parsing.Parser.Primary | ang_modules/parser.py:136-170 | Computes `PrimaryAt` |
| Parsing.Parser.Access | ang_modules/parser.py:141-156 | Computes the index suffixes and the optional call after an identifier |
| Parsing.Parser.Group | ang_modules/parser.py:157-160 | Computes a parenthesised expression |
| Parsing.Parser.ArrayLiteral | ang_modules/parser.py:161-169 | Computes an array literal |
| Parsing.Parser.Indexes | ang_modules/parser.py:143-146 | Computes the `[expr]` suffixes |
| Parsing.Parser.ExpressionList | ang_modules/parser.py:148-154 | Computes an argument or element list |
| ParsingFacts.StatementSelectedByFirstToken | ang_modules/parser.py:15-32 | A parsed statement is the kind its first token introduces. With no tokens left, or any other first token, the error is an unexpected token. |
| ParsingFacts.TierRestStops | ang_modules/parser.py:130-133 | A tier's operator loop stops only where no operator is next |
| ParsingFacts.TierStops | ang_modules/parser.py:112-134 | After any tier, no operator is next, so the outer tiers find nothing more to do |
| ParsingFacts.TierCollapses | ang_modules/parser.py:112-134 | All three tiers parse exactly like the innermost one |
| ParsingFacts.ExpressionIsOneTier | ang_modules/parser.py:109-134 | An expression is a single left-associative level with no precedence |
| ParsingFacts.PlainVariable | ang_modules/parser.py:141-156 | An identifier with no suffix is a variable node of one token |
| ParsingFacts.NoPrecedence | ang_modules/parser.py:112-134 | `a op1 b op2 c` is `(a op1 b) op2 c` for any two operators, e.g. `a + b * c` |
| ParsingFacts.NoPrefixOperators | ang_modules/parser.py:136-170 | An expression starting with anything but a number, string, identifier, `(` or `[` (a `-` included) is an expected-expression error |
| ParsingFacts.IndexesNestLeftwards | ang_modules/parser.py:143-146 | Index suffixes wrap the target leftwards, and no `[` follows them |
| ParsingFacts.AccessShape | ang_modules/parser.py:141-156 | An identifier takes index suffixes and then at most one call, whose callee is the indexed node and which ends at `)` |
| ParsingFacts.ExpressionListEnds | ang_modules/parser.py:148-154 | An argument or element list may be empty; a trailing comma is an expected-expression error |
| ParsingFacts.ExpressionsStopWithoutComma | ang_modules/parser.py:150-153 | The list loop only adds items and stops only where no comma is next |
| ParsingFacts.ParameterListEnds | ang_modules/parser.py:86-90 | A parameter list may be empty; a comma not followed by a name is an error |
| ParsingFacts.BlockStopsAtBrace | ang_modules/parser.py:103-107 | A block stops at `}` without consuming it, and only adds statements |
| ParsingFacts.BlockNeedsBrace | ang_modules/parser.py:103-107 | Running out of tokens inside a block is an error |
| ParsingFacts.IncaseNeedsOtherwise | ang_modules/parser.py:58-70 | `incase` without `otherwise` after its block is an expected-token error naming `OTHERWISE` |
| Values.Apply | ang_modules/interpreter.py:97-117 | `apply_binary_operator`; `BooleansAreNumbers`, `ComparisonsNeedNumbers`, `GreaterIsLessSwapped` and `EqualityNeverFails` state its properties |
| Values.Subscript | ang_modules/interpreter.py:78-83 | List indexing; `SubscriptValidRange` and `NegativeIndexCountsFromEnd` state its range and negative indices |
| Values.Truthy | ang_modules/interpreter.py:33-41 | The truth of a condition; `IncaseRunsOneBranch` and `WhileUnrolls` state how it chooses |
| Values.Equal | ang_modules/interpreter.py:114-115 | The host language's `==`; `EqualReflexive` and `EqualSymmetric` state its properties |
| Values.IntOf | ang_modules/interpreter.py:28 | `int()` on a text; `IntOfDecimal` and `IntOfNeedsDigits` state what it accepts and its value |
| Values.DigitsOf | ang_modules/interpreter.py:70-71 | A reference inverse of `int()`: the decimal text of a natural number, a nonempty string of digits, which `IntOfDecimal` reads back |
| Values.InputValue | ang_modules/interpreter.py:26-30 | `take` stores an integer exactly when the line parses as one |
| ValuesFacts.EqualReflexive | ang_modules/interpreter.py:114-115 | Every value is `==` to itself, lists included |
| ValuesFacts.EqualSymmetric | ang_modules/interpreter.py:114-115 | `==` is symmetric |
| ValuesFacts.EqualityNeverFails | ang_modules/interpreter.py:114-115 | `==` accepts any two operands, and is reflexive and symmetric |
| ValuesFacts.BooleansAreNumbers | ang_modules/interpreter.py:97-117 | Under every operator and on either side, a boolean gives exactly the result of the integer 1 or 0 it stands for, errors included |
| ValuesFacts.ComparisonsNeedNumbers | ang_modules/interpreter.py:106-113 | `>` and `<` succeed exactly on two numbers (booleans included), give a boolean, and are otherwise a type error |
| ValuesFacts.GreaterIsLessSwapped | ang_modules/interpreter.py:106-113 | `a > b` is `b < a`, errors included |
| ValuesFacts.SubscriptValidRange | ang_modules/interpreter.py:78-83 | Indexing a non-list, or with a non-number, is a type error. A list index works exactly from `-len` to `len - 1`; outside that range it is an index error. |
| ValuesFacts.NegativeIndexCountsFromEnd | ang_modules/interpreter.py:78-83 | `xs[i - len]` is `xs[i]` |
| ValuesFacts.DigitsOfValue | ang_modules/interpreter.py:70-71 | The digits of `n` read back as `n` |
| ValuesFacts.IntOfDecimal | ang_modules/interpreter.py:70-71 | `int()` of an integer's decimal text is that integer |
| ValuesFacts.IntOfNeedsDigits | ang_modules/interpreter.py:70-71 | `int()` refuses the empty text, a lone sign and any non-digit except a leading sign |
| ValuesFacts.InputValueReadsIntegers | ang_modules/interpreter.py:24-30 | `take` stores the integer a line spells, and the line itself when it spells none |
| Evaluation.Bind | ang_modules/interpreter.py:62 | `update(zip(parameters, arguments))`; `BindTruncates`, `BindKeepsOthers` and `BindSetsParameter` state its effect |
| Evaluation.KeyOf | ang_modules/interpreter.py:52 | The callee node's second field as a function-table key; `ArgumentsBeforeLookup` states its use |
| Evaluation.Lookup | ang_modules/interpreter.py:57-60 | The function-table lookup; `ArgumentsBeforeLookup` states its errors |
| Evaluation.Eval | ang_modules/interpreter.py:51-88 | No expression changes the variable table, calls included, whether it yields a value or an error. Evaluation only appends output and reads further in the input, and an error carries the state it was raised in. |
| Evaluation.EvalItems | ang_modules/interpreter.py:76-77 | A list of expressions yields one value per expression; with a value or an error, it leaves the variables alone |
| Evaluation.EvalCall | ang_modules/interpreter.py:51-59 | The arguments, then the lookup, then the body; after the call, with a value or an error, the variable table is the caller's |
| Evaluation.Invoke | ang_modules/interpreter.py:60-69 | The body runs on the caller's state with the parameters bound; afterwards, with a value or an error, the variable table is the caller's again, and output and input have only moved on |
| Evaluation.ExecStmt | ang_modules/interpreter.py:13-50 | A statement yields a value exactly when it is a `return`; with a value or an error, it only appends output and reads further in the input |
| Evaluation.ExecAll | ang_modules/interpreter.py:33-43 | Running a branch or loop body only appends output and reads further in the input, up to an error too |
| Evaluation.Loop | ang_modules/interpreter.py:41 | The `while` loop only appends output and reads further in the input, up to an error too |
| Evaluation.Pass | ang_modules/interpreter.py:42-44 | One pass of the loop, the body then the condition again, only appends output and reads further in the input, up to an error too |
| Evaluation.Run | ang_modules/interpreter.py:7-11 | Running a body or the program only appends output and reads further in the input. On an error the result carries the state it was raised in, so what was printed before it is kept. |
| EvaluationFacts.AssignmentSetsOneVariable | ang_modules/interpreter.py:15-18 | An assignment first evaluates its right-hand side, then changes the variables at its own name only |
| EvaluationFacts.CallFreeKeepsState | ang_modules/interpreter.py:70-88 | An expression without calls changes no part of the state |
| EvaluationFacts.CallFreeItemsKeepState | ang_modules/interpreter.py:76-77 | A list of expressions without calls changes no part of the state |
| EvaluationFacts.PlainAssignment | ang_modules/interpreter.py:15-18 | With a call-free right-hand side, an assignment changes that one variable and nothing else |
| EvaluationFacts.DeclarationOverwrites | ang_modules/interpreter.py:45-49 | A declaration stores `(params, body)` under its name without running it, and a later declaration replaces it |
| EvaluationFacts.BindTruncates | ang_modules/interpreter.py:62 | Binding pairs parameters and arguments up to the shorter list; the extras play no part |
| EvaluationFacts.BindKeepsOthers | ang_modules/interpreter.py:62 | A name outside the bound parameters keeps its value or stays unbound, extra parameters included |
| EvaluationFacts.BindSetsParameter | ang_modules/interpreter.py:62 | A bound parameter that does not repeat later holds its argument |
| EvaluationFacts.ArgumentsBeforeLookup | ang_modules/interpreter.py:52-59 | An argument's error comes before the lookup. With the arguments evaluated, an unknown name or hashable key is an undefined-function error, and an unhashable key is a type error, raised in the state the arguments left. |
| EvaluationFacts.DeclarationsInCallsPersist | ang_modules/interpreter.py:60-69 | A function declared inside a call stays declared; the variables come back as they were |
| EvaluationFacts.NoDirectReturnYieldsNothing | ang_modules/interpreter.py:64-67 | A body with no direct `return` yields nothing, whatever returns are nested in it |
| EvaluationFacts.NestedReturnIsDiscarded | ang_modules/interpreter.py:31-38 | A `return` inside an `incase` does not end the call, which yields none |
| EvaluationFacts.ReturnEndsBody | ang_modules/interpreter.py:8-11 | A `return` at the top of a body ends it; what follows never runs |
| EvaluationFacts.LeftOperandFirst | ang_modules/interpreter.py:84-88 | The left operand is evaluated first; its error is the expression's error |
| EvaluationFacts.ReadingAndIndexing | ang_modules/interpreter.py:74-83 | Reading an unbound variable is an error. Indexing with call-free operands is `Subscript` of their values. |
| EvaluationFacts.IncaseRunsOneBranch | ang_modules/interpreter.py:31-38 | Exactly one branch runs, chosen by truth. The branch not taken can be anything, and an error in the condition is the statement's error. |
| EvaluationFacts.WhileUnrolls | ang_modules/interpreter.py:39-44 | `while` evaluates its condition before every pass, runs the body when it is true, then loops again |
| EvaluationFacts.ProduceAppends | ang_modules/interpreter.py:19-21 | `produce` of a call-free expression appends exactly its value to the output |
| EvaluationFacts.PrintedOutputSurvives | ang_modules/interpreter.py:19-21 | What `produce` printed stays printed: the run of `produce(e); rest` ends, with a result or an error, with an output that begins with `e`'s value appended |
| EvaluationFacts.PrintThenFail | ang_modules/interpreter.py:19-21 | `produce(1); produce(x);` with `x` unbound fails on `x` with the `1` already printed |
| EvaluationFacts.TakeReadsNextLine | ang_modules/interpreter.py:24-30 | `take` stores the next line's value and moves past it; with no line left it fails |
| FuelFacts.EvalMonotone | ang_modules/interpreter.py:70-88 | An expression that does not run out of fuel has the same outcome under every larger budget |
| FuelFacts.ItemsMonotone | ang_modules/interpreter.py:76-77 | A list of expressions that does not run out of fuel has the same outcome under every larger budget |
| FuelFacts.CallMonotone | ang_modules/interpreter.py:51-59 | A call that does not run out of fuel has the same outcome under every larger budget |
| FuelFacts.InvokeMonotone | ang_modules/interpreter.py:60-69 | A body run for a call that does not run out of fuel has the same outcome under every larger budget |
| FuelFacts.ExecStmtMonotone | ang_modules/interpreter.py:13-50 | A statement that does not run out of fuel has the same outcome under every larger budget |
| FuelFacts.ExecAllMonotone | ang_modules/interpreter.py:34-38 | A branch body that does not run out of fuel has the same outcome under every larger budget |
| FuelFacts.LoopMonotone | ang_modules/interpreter.py:41 | A `while` loop that does not run out of fuel has the same outcome under every larger budget |
| FuelFacts.PassMonotone | ang_modules/interpreter.py:42-44 | A pass of a `while` loop that does not run out of fuel has the same outcome under every larger budget |
| FuelFacts.RunMonotone | ang_modules/interpreter.py:7-11 | A body or program that does not run out of fuel has the same result and state under every larger budget, so `OutOfFuel` only means the budget was too small |
| Interpreting.Interpreter.constructor | ang_modules/interpreter.py:2-5 | A new interpreter has empty tables, no output and no input read |
| Interpreting.Interpreter.Interpret | ang_modules/interpreter.py:7-11 | The result and the final fields are those of `Run` on the program. On an error, the fields hold the state the error was raised in, with everything printed before it. |
| Interpreting.Interpreter.RunBody | ang_modules/interpreter.py:64-67 | The loop over a body computes `Run` |
| Interpreting.Interpreter.Execute | ang_modules/interpreter.py:13-50 | A statement updates the fields as `ExecStmt` says |
| Interpreting.Interpreter.ExecuteIncase | ang_modules/interpreter.py:31-38 | Computes `ExecStmt` on the `incase` |
| Interpreting.Interpreter.ExecuteWhile | ang_modules/interpreter.py:39-44 | The `while` loop computes `ExecStmt` on the `while` |
| Interpreting.Interpreter.ExecuteAll | ang_modules/interpreter.py:34-35 | The loop over a branch computes `ExecAll` |
| Interpreting.Interpreter.Evaluate | ang_modules/interpreter.py:70-88 | Computes `Eval`; the variable table is unchanged |
| Interpreting.Interpreter.EvaluateAll | ang_modules/interpreter.py:55 | The values of a list, left to right, as `EvalItems` says; the variables are unchanged |
| Interpreting.Interpreter.CallFunction | ang_modules/interpreter.py:51-69 | Computes `EvalCall`. The variable table is put back on every way out, an error included. |

## Left out

- Unicode: `\d`, `\w` and `\s` are read as their ASCII classes; `\s` includes the separators 0x1C to 0x1F, as in Python. Non-ASCII digits, letters and blanks are not modelled.
- The dead code is not part of this model, because nothing reaches it:
  - `Lexer.update_position` (ang_modules/lexer.py:71-77);
  - `Parser.function_call` (ang_modules/parser.py:172-181);
  - the `unary` branch of `evaluate` (ang_modules/interpreter.py:89-93), which the parser never produces.
- Position fields: the lexer's `line` and `column` fields, set by its constructor, are never used by `tokenize`. The model keeps only the local counters.
- `anuraglang.py` is not part of this model. It only reads the file from the command line and prints the tokens and the tree.
- Console I/O:
  - the printing in `produce` becomes appending a `Value` to `output`;
  - `input()` becomes reading the next element of `input`;
  - the text Python prints for a value is not modelled.
- Debug prints (ang_modules/interpreter.py:50, 53-54, 56, 58): these print calls are not modelled.
- Values.Apply: `/` on numbers is `Unsupported`, except a zero divisor, which is `ZeroDivision`. Python's true division yields floats, and floating point is outside the model.
- Values.Apply: string and list repetition with `*` is `Unsupported`. Any other mixed operands are a type error. Only int (with bool as 0 or 1), string and list arithmetic are modelled.
- Values.IntOf: only an optional sign and ASCII digits. The model ignores Python `int()`'s surrounding whitespace, underscores and non-ASCII digits.
- Values.IntOf: the model has no limit on the number of digits. Python 3.11 and later (and the 3.10.7 and later security releases) refuse a decimal text of more than 4300 digits by default, a limit set by `sys.set_int_max_str_digits` or `PYTHONINTMAXSTRDIGITS`. Above it, a number literal is an error where the model yields an integer, and a `take` line is stored as text where the model stores an integer.
- Interpreting.Interpreter.Interpret: recursion and loops are bounded by fuel. Each call and each `while` iteration spends one unit. `OutOfFuel` only says the budget was too small: a run that ends any other way ends the same way under every larger budget (`RunMonotone`). A program that runs forever in Python gives `OutOfFuel` for every budget. Python's recursion limit is not modelled.
- Evaluation.Eval: error messages are modelled as error kinds only, without their text or position.
- Parsing.Parser.Advance: it requires a nonempty token list. On an empty list, Python's `previous` raises an `IndexError`. No caller reaches that case, because `advance` is only called after `check` has found a token.
- Parsing.Parser.Primary: `match` on one kind is written as `CheckAt` then `Advance`. This has the same effect on the cursor.
- Parsing.Parser: after a syntax error the cursor is left wherever the failing step stopped, and the contracts say nothing about it. Python raises and the parser object is not used again.
- Interpreting.Interpreter.Interpret: it returns `Ok(None)` when there is no top-level `return`, where Python returns `None`. An error is a `Result` instead of an exception. It carries the state in which it was raised, so the output printed before it stays recorded.
- The `line` field of the lexer's error (where the documentation mentions one) is not modelled. The error carries the character and its position.
