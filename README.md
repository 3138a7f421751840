# jlox front end and tree-walking interpreters, modelled in Dafny

This project models the core of a Java implementation of Lox ("jlox"), a small
dynamically typed scripting language. The core has four parts:

- **the scanner** (`jlox/src/main/java/jlox/Scanner.java`) turns source text
  into tokens and reports lexical errors;
- **the parser** (`jlox/Parser.java`) is a recursive-descent parser for
  `print` and expression statements over the expression grammar
  `equality > comparison > term > factor > unary > primary`;
- **the earlier interpreter draft** (`jlox/Interpreter.java`) evaluates
  literals, groupings, unary and binary expressions, and runs expression and
  print statements;
- **the later interpreter draft** (`jlox/src/main/java/jlox/Interpreter.java`)
  adds variables, assignment, `var`, `if`, blocks and an environment.

The model follows the code as written, including where the code differs from
the language's documented design:

- the parser has no variables, `var`, `if`, blocks or assignment;
- the parser never calls `synchronize`, so the first syntax error ends the
  whole parse;
- in both interpreters, the MINUS case of a binary expression divides;
- there is no SLASH case, so `a / b` evaluates to nil;
- `==` and `!=` demand number operands;
- `+` on a mixed pair (say a number and a string) yields nil instead of
  failing;
- `if` passes the condition *node* to `isTruthy`, so the condition is never
  evaluated and the then-branch always runs;
- `executeBlock` never installs the environment it is given, so a block runs
  in the enclosing environment and its `var` declarations outlive it.

The documented design instead scopes blocks, evaluates the condition, lets
`==` compare any values and raises a type error for a mixed `+`.

## Layout

| file | module | contents |
|---|---|---|
| `values.dfy` | `Values` | runtime values, 64-bit doubles as bit patterns, the floating-point operations as parameters (`Arith`), `Option`, `Result`, `Outcome`, `Diagnostic` |
| `tokens.dfy` | `Tokens` | token kinds, tokens, and the diagnostic reported for a token |
| `ast.dfy` | `Ast` | expression and statement trees |
| `scanner.dfy` | `Scanning` | the scanner as a pure step function `Step`/`ScanFrom`, its properties, and the `Scanner` class proved to compute it |
| `grammar.dfy` | `Grammar` | the grammar as pure functions over a token list and a position |
| `precedence.dfy` | `Precedence` | precedence and associativity as a render/parse round trip, in both directions |
| `parser.dfy` | `Parsing` | the `Parser` class, each rule method proved to compute its grammar function |
| `semantics.dfy` | `Semantics` | truthiness, equality, operand checks, `stringify`, and the unary and binary operator switches both drafts share |
| `draft.dfy` | `DraftInterpreting` | the earlier interpreter: `Evaluate`/`Execute`/`Run` and the `Interpreter` class |
| `interpreter.dfy` | `Interpreting` | the later interpreter: `Environment`, `Eval`/`Exec`/`ExecAll` and the `Interpreter` class |

Each imperative class keeps the source's fields. Its methods are proved
against the pure specification functions beside it. The properties are
proved about those functions.

## Model

| member | source | states |
|---|---|---|
| Tokens.ErrorAt | jlox/Lox.java:74-80 | a token's diagnostic carries the token's line and the message, and its location is "at end" exactly for the end-of-input token |
| Scanning.SkipWhile | jlox/src/main/java/jlox/Scanner.java:152-153 | a `while (p(peek())) advance()` loop stops at the first character that fails `p`, or at the end, having passed only characters that satisfy `p` |
| Scanning.SkipWhileAt | jlox/src/main/java/jlox/Scanner.java:136-137 | the stopping index is determined: any index with that property is the one the loop reaches |
| Scanning.NumberEnd | jlox/src/main/java/jlox/Scanner.java:135-146 | a number lexeme ends within the source and contains only digits and `.` |
| Scanning.StringStep | jlox/src/main/java/jlox/Scanner.java:115-133 | scanning a string literal consumes at least the opening quote and stays within the source |
| Scanning.Step | jlox/src/main/java/jlox/Scanner.java:54-113 | one `scanToken` call consumes at least one character and stays within the source |
| Scanning.StepWellFormed | jlox/src/main/java/jlox/Scanner.java:54-113 | every step advances the line by the newlines it consumed; a token it adds has exactly the consumed text and the current line and is never EOF; it adds a token or reports an error, never both; an error is "Unexpected character." or "Unterminated string." with no location |
| Scanning.OperatorLookahead | jlox/src/main/java/jlox/Scanner.java:70-73 | `!`, `=`, `<`, `>` take a following `=` into a two-character token and otherwise give the one-character kind |
| Scanning.Slash | jlox/src/main/java/jlox/Scanner.java:76-83 | `//` skips up to but not including the next newline and adds no token; a lone `/` is a SLASH token |
| Scanning.StringLiteral | jlox/src/main/java/jlox/Scanner.java:115-133 | a closed string gives a STRING token whose literal is the text between the quotes; an unclosed one consumes the rest of the source, adds no token and reports "Unterminated string." |
| Scanning.NumberLiteral | jlox/src/main/java/jlox/Scanner.java:135-149 | a number is a maximal digit run, optionally followed by `.` and at least one digit; a trailing `.` with no digit after it is not consumed; the literal is the parsed lexeme |
| Scanning.IdentifierLiteral | jlox/src/main/java/jlox/Scanner.java:151-160 | an identifier is a maximal `[A-Za-z_][A-Za-z0-9_]*` run whose kind is the reserved word's kind when it is one and IDENTIFIER otherwise |
| Scanning.KeywordTable | jlox/src/main/java/jlox/Scanner.java:18-37 | every reserved word has a kind of its own (the kind reads back as the word), and none maps to IDENTIFIER or EOF |
| Scanning.UnexpectedCharacter | jlox/src/main/java/jlox/Scanner.java:100-111 | any other character is skipped, adds no token and reports "Unexpected character." on the current line |
| Scanning.CharacterClasses | jlox/src/main/java/jlox/Scanner.java:182-194 | a digit is a character from `0` to `9`; a letter is `_` or a character from `a` to `z` or `A` to `Z`; an identifier character is a digit or a letter |
| Scanning.ScanFrom | jlox/src/main/java/jlox/Scanner.java:43-52 | scanning from a cursor yields at least one token (the EOF) and one span per token; there are at most one token plus one per remaining character, diagnostics included |
| Scanning.Scan | jlox/src/main/java/jlox/Scanner.java:43-52 | `scanTokens` ends with `EOF` with empty text, no literal and the line one past the number of newlines in the source; no earlier token is EOF |
| Scanning.ScanEndsWithEof | jlox/src/main/java/jlox/Scanner.java:43-52 | the token list ends with exactly one EOF token, with empty lexeme and no literal, on the last line of the source |
| Scanning.ScanSpans | jlox/src/main/java/jlox/Scanner.java:205-212 | every token's text is the source text of its span, its line counts the newlines before the span's end, and spans are in source order without overlap |
| Scanning.ScanErrors | jlox/src/main/java/jlox/Scanner.java:110-123 | a scan reports only "Unexpected character." and "Unterminated string.", with no location |
| Scanning.Scanner.constructor | jlox/src/main/java/jlox/Scanner.java:39-41 | a new scanner is at the start of the source on line 1 with no tokens |
| Scanning.Scanner.Advance | jlox/src/main/java/jlox/Scanner.java:200-203 | returns the current character and moves past it |
| Scanning.Scanner.Match | jlox/src/main/java/jlox/Scanner.java:162-168 | consumes the next character exactly when it is the expected one |
| Scanning.Scanner.IsAtEnd | jlox/src/main/java/jlox/Scanner.java:196-198 | the scanner is at the end exactly when no source text remains after the cursor |
| Scanning.Scanner.Peek | jlox/src/main/java/jlox/Scanner.java:170-174 | the character at the cursor, or `'\0'` at the end |
| Scanning.Scanner.PeekNext | jlox/src/main/java/jlox/Scanner.java:176-180 | the character after the cursor, or `'\0'` when the source has no character there |
| Scanning.Scanner.AddToken | jlox/src/main/java/jlox/Scanner.java:205-212 | appends a token whose text is the current lexeme, on the current line |
| Scanning.Scanner.Error | jlox/Lox.java:65-67 | appends a diagnostic for the current line with no location |
| Scanning.Scanner.ScanTokens | jlox/src/main/java/jlox/Scanner.java:43-52 | the tokens and diagnostics produced are those of `ScanFrom` from the cursor |
| Scanning.Scanner.ScanToken | jlox/src/main/java/jlox/Scanner.java:54-113 | one call computes one `Step`: new cursor, line, token and diagnostic |
| Scanning.Scanner.Slash | jlox/src/main/java/jlox/Scanner.java:76-83 | the `/` case computes its `Step` |
| Scanning.Scanner.Default | jlox/src/main/java/jlox/Scanner.java:100-111 | the default case computes its `Step`: a number, an identifier or an error |
| Scanning.Scanner.String | jlox/src/main/java/jlox/Scanner.java:115-133 | `string()` computes `StringStep` |
| Scanning.Scanner.AdvanceToQuote | jlox/src/main/java/jlox/Scanner.java:116-120 | the loop stops at the closing quote or the end and counts the newlines it passes |
| Scanning.Scanner.AdvanceWhile | jlox/src/main/java/jlox/Scanner.java:143-144 | the loop ends where `SkipWhile` says |
| Scanning.Scanner.Number | jlox/src/main/java/jlox/Scanner.java:135-149 | `number()` ends at `NumberEnd` and adds a NUMBER token with the parsed lexeme |
| Scanning.Scanner.Identifier | jlox/src/main/java/jlox/Scanner.java:151-160 | `identifier()` consumes the maximal alphanumeric run and adds a reserved-word or IDENTIFIER token |
| Grammar.FailureDiagnostic | jlox/Parser.java:106-109 | a failed parse reports its message on the line of the token where it failed |
| Grammar.BinaryLevel | jlox/Parser.java:142-186 | each binary operator kind belongs to exactly one of the four levels, and that level's `match` list holds it |
| Grammar.Ops | jlox/Parser.java:142-186 | each level's `match` list is non-empty and every kind in it belongs to that level |
| Grammar.ParseExpression | jlox/Parser.java:135-137 | a parsed expression consumes at least one token and no EOF; a failure lies within the input and is never the ";" message |
| Grammar.ParseLevel | jlox/Parser.java:142-186 | the same for each binary level |
| Grammar.Operand | jlox/Parser.java:142-186 | the same for a level's operand rule |
| Grammar.LevelRest | jlox/Parser.java:145-147 | the `while (match(...))` loop never moves back and never consumes EOF |
| Grammar.ParseUnary | jlox/Parser.java:191-196 | the same guarantees as `ParseExpression` for `unary` |
| Grammar.ParsePrimary | jlox/Parser.java:202-213 | the same guarantees as `ParseExpression` for `primary` |
| Grammar.PrimaryOf | jlox/Parser.java:202-213 | `true`, `false`, `nil`, numbers and strings become literals; any token that cannot start an expression fails with "Expect expression." at that token |
| Grammar.GroupingClosed | jlox/Parser.java:208-210 | `(` expression `)` becomes a grouping that ends after the `)` |
| Grammar.GroupingUnclosed | jlox/Parser.java:208-210 | a missing `)` fails with "Expect ')' after expression" at the token after the expression |
| Grammar.ParseStatementBody | jlox/Parser.java:52-63 | a parsed body is a print or expression statement, as asked, of the expression parsed from its start, and ends with the ";" after it; it fails with the ";" message exactly when the expression parsed, at the token after it, which is not ";"; a failure lies within the input |
| Grammar.ParseStatement | jlox/Parser.java:45-49 | a parsed statement is a print statement exactly when it starts with "print", otherwise an expression statement; its expression is the one parsed after "print" or from the start, and it ends with ";" |
| Grammar.StatementClosed | jlox/Parser.java:45-63 | an expression (after "print", when the statement starts with it) followed by ";" parses as the whole statement |
| Grammar.ParseProgram | jlox/Parser.java:35-42 | a parsed program stops at the EOF token; the first failure ends the parse |
| Precedence.ExpressionRoundTrip | jlox/Parser.java:135-213 | wherever in a token list the tokens of a tree with correctly nested precedence and left-leaning binary operators stand, followed by a token that is no binary operator, the parser reads that tree back and stops after it; the tokens need only agree in what the parser reads (a literal's kind and value, a parenthesis's kind, the operator token itself), so any lexeme and line will do |
| Precedence.LevelSpelled | jlox/Parser.java:142-186 | every tree a binary level returns is canonical (left-leaning, with operands of the right precedence), is spelled by exactly the tokens consumed, and stops at a token that is no operator of that level or a tighter one |
| Precedence.RestSpelled | jlox/Parser.java:145-147 | each turn of a level's loop keeps the left spine canonical and spelled by the tokens consumed |
| Precedence.UnarySpelled | jlox/Parser.java:191-196 | every tree `unary` returns is canonical and spelled by the tokens consumed |
| Precedence.PrimarySpelled | jlox/Parser.java:202-213 | every tree `primary` returns is a literal or grouping spelled by the tokens consumed |
| Precedence.ExpressionIff | jlox/Parser.java:135-213 | the parser returns a tree ending at a position exactly when the tokens up to there spell that canonical tree and the token there is no binary operator |
| Precedence.PrintRoundTrip | jlox/Parser.java:45-63 | `print`, a canonical tree's tokens and ";" parse as that print statement |
| Precedence.ExpressionStatementRoundTrip | jlox/Parser.java:45-55 | a canonical tree's tokens and ";" parse as that expression statement |
| Precedence.LeftAssociative | jlox/Parser.java:142-186 | `a op b op c`, for any literal tokens a, b, c and operators of one level, groups as `(a op b) op c` |
| Precedence.TighterOnTheRight | jlox/Parser.java:142-186 | `a + b * c` groups as `a + (b * c)`, for any literal tokens and every pair of levels |
| Precedence.TighterOnTheLeft | jlox/Parser.java:142-186 | `a * b + c` groups as `(a * b) + c`, for any literal tokens and every pair of levels |
| Precedence.UnaryNestsRight | jlox/Parser.java:191-196 | `op1 op2 a` parses as `op1 (op2 a)` for any literal token a |
| Parsing.Parser.constructor | jlox/Parser.java:30-32 | the cursor starts at the first token with nothing reported |
| Parsing.Parser.Advance | jlox/Parser.java:94-98 | moves past the current token unless it is EOF and returns the token before the cursor |
| Parsing.Parser.Peek | jlox/Parser.java:81-83 | returns the token at the cursor, which is EOF when the cursor is on the last token |
| Parsing.Parser.Check | jlox/Parser.java:76-79 | holds exactly when the current token has the kind; on the last token it holds only for EOF |
| Parsing.Parser.IsAtEnd | jlox/Parser.java:85-88 | holds exactly when the current token is EOF, and always on the last token |
| Parsing.Parser.Previous | jlox/Parser.java:90-92 | returns the token just before the cursor |
| Parsing.Parser.Match | jlox/Parser.java:66-74 | reports whether the current kind is in the list, and consumes it exactly then (never moving past EOF) |
| Parsing.Parser.Error | jlox/Parser.java:106-109 | reports exactly one diagnostic for the token |
| Parsing.Parser.Consume | jlox/Parser.java:100-104 | consumes and returns a token of the expected kind, or reports the message at the current token and fails without moving |
| Parsing.Parser.Synchronize | jlox/Parser.java:111-130 | stops at EOF, just after a ";" or just before a statement keyword, and passes no earlier such point; it always moves unless at EOF |
| Parsing.Parser.Parse | jlox/Parser.java:35-42 | returns the statements `ParseProgram` gives, or fails where it fails after reporting exactly its one diagnostic |
| Parsing.Parser.Statement | jlox/Parser.java:45-49 | computes `ParseStatement`, with the same reporting |
| Parsing.Parser.ExpressionStatement | jlox/Parser.java:52-56 | computes an expression statement body |
| Parsing.Parser.PrintStatement | jlox/Parser.java:59-63 | computes a print statement body |
| Parsing.Parser.Expression | jlox/Parser.java:135-137 | computes `ParseExpression` |
| Parsing.Parser.Equality | jlox/Parser.java:142-149 | computes level 1 (`!=`, `==`) |
| Parsing.Parser.Comparison | jlox/Parser.java:154-161 | computes level 2 (`>`, `>=`, `<`, `<=`) |
| Parsing.Parser.Term | jlox/Parser.java:166-173 | computes level 3 (`-`, `+`) |
| Parsing.Parser.Factor | jlox/Parser.java:178-186 | computes level 4 (`/`, `*`) |
| Parsing.Parser.Operand | jlox/Parser.java:142-186 | calls the operand rule of a level and computes its grammar function |
| Parsing.Parser.LevelLoop | jlox/Parser.java:145-147 | the `while (match(...))` loop of a level builds the left-leaning chain `LevelRest` describes |
| Parsing.Parser.Extend | jlox/Parser.java:146 | after a matched operator, parses the right operand and folds it into `Binary`, leaving the rest of the chain `LevelRest` describes unchanged, or fails as that operand fails |
| Parsing.Parser.Unary | jlox/Parser.java:191-196 | computes `ParseUnary` |
| Parsing.Parser.Primary | jlox/Parser.java:202-213 | computes `ParsePrimary`, reporting "Expect expression." or the missing-`)` message where it fails |
| Parsing.Parser.Group | jlox/Parser.java:207-211 | the parenthesised case of `primary`: an expression followed by `)`, computing `ParsePrimary` from the `(` on |
| Semantics.IsTruthy | jlox/src/main/java/jlox/Interpreter.java:154-158 | everything is true except nil and false |
| Semantics.IsEqual | jlox/src/main/java/jlox/Interpreter.java:160-164 | two values are equal exactly when they are the same value |
| Semantics.CheckNumberOperand | jlox/src/main/java/jlox/Interpreter.java:166-169 | passes exactly for a number, and otherwise fails with "Operand must be a number." at the operator |
| Semantics.CheckNumberOperands | jlox/src/main/java/jlox/Interpreter.java:171-174 | passes exactly for two numbers, and otherwise fails with "Operands must be numbers." at the operator |
| Semantics.CheckStringOperands | jlox/src/main/java/jlox/Interpreter.java:176-179 | passes exactly for two strings, and otherwise fails with "Operands must be strings." at the operator |
| Semantics.Stringify | jlox/src/main/java/jlox/Interpreter.java:181-190 | nil prints "nil", Booleans "true"/"false", strings verbatim, and numbers as their text minus a trailing ".0" |
| Semantics.UnaryOp | jlox/src/main/java/jlox/Interpreter.java:94-105 | `!` negates truthiness; `-` negates a number and fails on anything else; other operators give nil |
| Semantics.BinaryOp | jlox/src/main/java/jlox/Interpreter.java:107-148 | fails exactly when a numeric operator (comparisons, `-`, `*`, `==`, `!=`) meets a non-number; `-` divides; `==`/`!=` compare; `+` adds two numbers, concatenates two strings and otherwise gives nil; `/` and any other operator give nil |
| Semantics.ConditionNodeIsTruthy | jlox/src/main/java/jlox/Interpreter.java:49 | a syntax-tree node handed to `isTruthy` is always true |
| DraftInterpreting.Evaluate | jlox/Interpreter.java:33-96 | a runtime error is always raised at one of the expression's own operators, with one of the two number messages |
| DraftInterpreting.NumberExprEvaluates | jlox/Interpreter.java:42-96 | an expression built from numbers with unary `-` and binary `-`, `+`, `*` never fails and yields a number |
| DraftInterpreting.LeftOperandFirst | jlox/Interpreter.java:55-57 | the left operand is evaluated first, so its error is the one raised |
| DraftInterpreting.Execute | jlox/Interpreter.java:20-31 | a failing statement prints nothing; a print statement that succeeds prints one line, an expression statement none |
| DraftInterpreting.Run | jlox/Interpreter.java:6-14 | `interpret` prints at most one line per print statement in the list, and exactly one per print statement when no runtime error occurs |
| DraftInterpreting.RunAppend | jlox/Interpreter.java:6-14 | running two lists in turn is running their concatenation: the second runs only if the first raised no error |
| DraftInterpreting.RunStops | jlox/Interpreter.java:11-13 | nothing after the first runtime error runs |
| DraftInterpreting.RunLines | jlox/Interpreter.java:27-31 | when nothing fails, the run prints exactly one line per print statement |
| DraftInterpreting.Interpreter.constructor | jlox/Interpreter.java:5 | a new interpreter has printed and reported nothing |
| DraftInterpreting.Interpreter.ExecuteStatement | jlox/Interpreter.java:16-31 | executes one statement as `Execute` says |
| DraftInterpreting.Interpreter.Interpret | jlox/Interpreter.java:6-14 | prints what `Run` prints and reports its error, if any, exactly once |
| Interpreting.Lookup | jlox/src/main/java/jlox/Interpreter.java:81-83 | a lookup succeeds exactly for a bound name, with its value, and otherwise fails with "Undefined variable 'name'." at the name |
| Interpreting.Undefined | jlox/src/main/java/jlox/Interpreter.java:74-83 | an unbound name is reported at the name's token with "Undefined variable '<name>'.", the text the documented design gives (`Environment.java` is not part of this model) |
| Interpreting.Environment.constructor | jlox/src/main/java/jlox/Interpreter.java:6 | the interpreter's environment starts empty, with no enclosing scope |
| Interpreting.Environment.Nested | jlox/src/main/java/jlox/Interpreter.java:24 | a block's environment starts empty, enclosing the current one |
| Interpreting.Environment.Define | jlox/src/main/java/jlox/Interpreter.java:69 | binds or rebinds the name in the scope's own table |
| Interpreting.Environment.Get | jlox/src/main/java/jlox/Interpreter.java:82 | returns the value in the innermost scope that binds the name, or the undefined-variable error when none does |
| Interpreting.Environment.Assign | jlox/src/main/java/jlox/Interpreter.java:76 | rebinds the name in the innermost scope that binds it and changes no other scope; fails, changing nothing, when no scope binds it |
| Interpreting.Eval | jlox/src/main/java/jlox/Interpreter.java:73-152 | evaluation never changes which names are bound, and every runtime error is raised at one of the expression's own operators or names |
| Interpreting.ReadOnlyEval | jlox/src/main/java/jlox/Interpreter.java:81-92 | an expression without assignments leaves every variable as it was |
| Interpreting.ExtendsDraft | jlox/src/main/java/jlox/Interpreter.java:85-148 | on the expressions both drafts have, the later one computes exactly what the earlier one does |
| Interpreting.AssignmentYieldsValue | jlox/src/main/java/jlox/Interpreter.java:74-78 | an assignment yields the assigned value and rebinds the name; an unbound name fails after the value is computed |
| Interpreting.Exec | jlox/src/main/java/jlox/Interpreter.java:41-71 | a statement never unbinds a name and binds no name it does not declare |
| Interpreting.ExecAll | jlox/src/main/java/jlox/Interpreter.java:28-39 | the same for a list of statements |
| Interpreting.ExecAllAppend | jlox/src/main/java/jlox/Interpreter.java:32-34 | running two lists in turn is running their concatenation: the second runs, in the variables the first left, only if the first raised no error |
| Interpreting.ExecAllStops | jlox/src/main/java/jlox/Interpreter.java:13-15 | nothing after the first runtime error runs |
| Interpreting.IfRunsThenBranch | jlox/src/main/java/jlox/Interpreter.java:48-54 | an `if` statement does exactly what its then-branch does, whatever its condition and else-branch |
| Interpreting.ExecBinds | jlox/src/main/java/jlox/Interpreter.java:41-71 | a statement that raises no error leaves bound every name it defines (its declarations outside an else-branch) |
| Interpreting.ExecAllBinds | jlox/src/main/java/jlox/Interpreter.java:28-39 | the same for a list of statements |
| Interpreting.BlockRunsInEnclosingTable | jlox/src/main/java/jlox/Interpreter.java:23-39 | a block does exactly what its statements do in the enclosing variables, so when it raises no error every name bound before it and every name it defines is bound after it, to the value its statements left |
| Interpreting.BlockLeaksDefinitions | jlox/src/main/java/jlox/Interpreter.java:23-39 | the one-declaration case: `{ var x = v; }` leaves x bound to v after the block |
| Interpreting.ShadowingLeaks | jlox/src/main/java/jlox/Interpreter.java:23-39 | `var a = "outer"; { var a = "inner"; } print a;` prints "inner" |
| Interpreting.VarDefaultsToNil | jlox/src/main/java/jlox/Interpreter.java:64-71 | `var x;` binds x to nil |
| Interpreting.Interpreter.constructor | jlox/src/main/java/jlox/Interpreter.java:6 | a new interpreter has an empty root environment and has printed and reported nothing |
| Interpreting.Interpreter.Evaluate | jlox/src/main/java/jlox/Interpreter.java:150-152 | evaluates as `Eval` says: its value or error, and the variables afterwards |
| Interpreting.Interpreter.VisitUnary | jlox/src/main/java/jlox/Interpreter.java:94-105 | the same for a unary expression |
| Interpreting.Interpreter.VisitBinary | jlox/src/main/java/jlox/Interpreter.java:107-148 | the same for a binary expression |
| Interpreting.Interpreter.VisitAssign | jlox/src/main/java/jlox/Interpreter.java:74-78 | the same for an assignment |
| Interpreting.Interpreter.Execute | jlox/src/main/java/jlox/Interpreter.java:18-20 | executes as `Exec` says and keeps the same environment object |
| Interpreting.Interpreter.VisitIf | jlox/src/main/java/jlox/Interpreter.java:48-54 | the same for an `if` statement |
| Interpreting.Interpreter.VisitBlock | jlox/src/main/java/jlox/Interpreter.java:23-26 | the same for a block |
| Interpreting.Interpreter.ExecuteBlock | jlox/src/main/java/jlox/Interpreter.java:28-39 | runs the statements as `ExecAll` says and leaves the same environment installed however it ends |
| Interpreting.Interpreter.ExecuteAll | jlox/src/main/java/jlox/Interpreter.java:32-34 | runs the statements in order until the first error, as `ExecAll` says |
| Interpreting.Interpreter.Interpret | jlox/src/main/java/jlox/Interpreter.java:8-16 | prints what `ExecAll` prints, leaves the variables it leaves, and reports its error, if any, exactly once |

## Left out

- Floating point: numbers are 64-bit patterns, but negation, `+`, `/`, `*`, the comparisons, `Double.parseDouble` and `Double.toString` are parameters (`Arith`, and the scanner's `parse`), not IEEE 754 arithmetic. Properties that depend on the arithmetic itself, such as `4.0` printing as "4", are therefore not stated.
- `Lox.java`: the driver, file and prompt input, `System.exit`, the `hadError` flag and the text of printed diagnostics are not modelled. Diagnostics are kept as `(line, where, message)` values, and printed lines as a list of strings.
- Characters are Unicode scalar values, not the UTF-16 code units Java's `charAt` returns. A character outside the Basic Multilingual Plane is one character here but two in Java: outside a string literal the source reports "Unexpected character." twice for it, the model once. Unpaired surrogates cannot occur in a Dafny string.
- `Lox.runtimeError` is not in the source; a reported runtime error is kept as the `RuntimeError` value.
- `Environment.java` is not part of this model. `Interpreting.Environment` follows the documented design: `define` writes the scope's own table, while `get` and `assign` search outward through the enclosing scopes. The text of the undefined-variable message is assumed to be "Undefined variable 'name'.".
- `RuntimeError.java`, `Token.java`, `TokenType.java`, `Expr.java` and `Stmt.java` are not part of this model; their shapes are rebuilt in `Tokens` and `Ast`.
- Visitor dispatch (`accept`/`visit...`) is replaced by `match` over the tree; exceptions are replaced by `Result`/`Option` values.
- Parsing.Parser.LevelLoop: the four `while (match(...))` loops of `equality`, `comparison`, `term` and `factor`, identical apart from the operator list and the operand call, are one method taking the level. Its loop body is the separate method `Extend`.
- Parsing.Parser.Synchronize is modelled and proved, but nothing calls it, as in the source.
- Interpreting.Interpreter.VisitIf: the else-branch, guarded by `thenBranch != null`, cannot run because `isTruthy` of a node is always true; it is marked unreachable rather than modelled.
- Interpreting.Interpreter.Evaluate: methods require the installed environment to be the root one. The interpreter never installs any other, since `executeBlock` never installs the environment it is given.
- Grammar.ParsePrimary: the messages are a closed type (`ParseMessage`) rather than free strings. Their texts are the source's.
- `Lox.run` passes the statement list from `parse()` to an expression printer; that type mismatch is outside the core and is not modelled.
