# Lox interpreter core, modelled and verified in Dafny

This project models the pipeline of a tree-walking interpreter for the Lox
scripting language, written in C#. The pipeline runs from source text to
evaluated result:

- **Scanning.** The scanner (`LoxScanner`) turns a string into a list of
  tokens (`LoxToken`) ending in an end-of-input token, and reports lexical
  errors through an event. In the model:
  - `Lexing` gives what it computes as functions of the text;
  - the class `Scanning.Scanner` keeps the source's cursor fields and
    `while` loops, and each of its methods is proved to compute exactly the
    `Lexing` function of its case;
  - the keyword table, character classes and lexeme shapes are in `Lexical`;
  - the token record and its text rendering are in `Tokens`.
- **Parsing.** The recursive-descent expression parser (`LoxParser`) builds
  a tree with six precedence levels. `Parsing` defines the grammar rules as
  functions over the token list and a cursor. The class `Parsing.Parser`
  moves its cursor and collects its error reports as the source does, and
  each of its methods is proved to agree with its rule. Two properties are
  proved about the rules:
  - the tree spells exactly the tokens it consumed;
  - precedence and left associativity hold.
- **Resolution.** The resolver (`LoxResolver`) keeps a stack of scopes that
  map a name to "declaration finished". It reports three static errors and
  hands each local variable reference its scope distance. In the model:
  - `Resolution` gives the pass as functions on a resolver state;
  - the class `Resolution.Resolver` does the same work on mutable fields;
  - each distance is recorded as a `Resolution(expr, distance)` entry in a
    log.
- **Environments and objects.** `Runtime` holds four parts:
  - the chain of variable scopes (`LoxEnvironment`), a class with a mutable
    binding map and a fixed enclosing link, specified by the sequence of
    frames it reaches;
  - function and class values;
  - class instances (`LoxInstance`) with their mutable fields;
  - property lookup.
- **Evaluation.** `Semantics` defines the implemented part of the
  interpreter (`LoxInterpreter`) as functions over frames, printed lines and
  runtime errors. The class `Interpreting.Interpreter` swaps and restores its
  current scope as the source does, and is proved to agree with those
  functions.
- **Calls.** `Callables` models calling a user function (`LoxFunction`):
  parameter binding in a fresh scope, then the body run through
  `ExecuteBlock`. It also models calling a class (`LoxClass`): a new instance
  and the optional `init`.
- **Printing.** `Printing` models the debugging printer (`AstPrinter`).
  Besides the layout of each node, it proves that every rendering is a
  balanced parenthesized form whenever the words it copies (lexemes,
  string literals, rendered numbers) hold no parentheses; `Parens` defines
  what balanced means.

Runtime failures are values of `Runtime.Outcome`:
- `Normal` for a result;
- `Raised` for a `LoxRuntimeErrorException`, carrying its line, column and
  message;
- `Crash` for a host exception that nothing catches and that ends the
  process.

The scanner, parser and resolver each model the host exceptions that escape
them in the same explicit way.

## Model

| member | source | states |
|---|---|---|
| Tokens.StringifyLiteral | src/LoxToken.cs:18-31 | A missing literal renders as `null`, a string as its raw contents, a number through the number format, and a boolean as the host's capitalised `True` or `False`. |
| Tokens.Name | src/LoxToken.cs:33 | The type name a token's text starts with is a non-empty word with no space in it. |
| Tokens.ToString | src/LoxToken.cs:33 | A token's text is the type name, a space, the lexeme, a space and the literal's text, in that order. Its first space-free word is the type name, whatever spaces the lexeme or literal hold. |
| Tokens.WithLiteral | src/LoxToken.cs:3-16 | `with { Literal = … }` sets the literal and keeps type, lexeme, line and column. |
| Lexical.KeywordTableDistinct | src/LoxScanner.cs:9-29 | The 18 keyword entries have pairwise distinct words, so the table is a dictionary. |
| Lexical.LookupFindsEntry | src/LoxScanner.cs:197 | A keyword lookup finds an entry of the table, and finds nothing exactly when no entry has that word. |
| Lexical.LookupDistinct | src/LoxScanner.cs:197 | In a table with distinct words, looking up entry i's word yields entry i's type. |
| Lexical.KeywordsAreFixedSpellings | src/LoxScanner.cs:9-29 | A word the table maps to a type is that type's only spelling, and it has an identifier's shape. |
| Lexical.KeywordSpelling | src/LoxScanner.cs:9-29 | Every keyword type has a fixed spelling, and the table maps that spelling back to the type. |
| Lexical.OperatorSpellings | src/LoxScanner.cs:74-77 | `!`, `=`, `<` and `>` spell the one-character type; followed by `=` they spell the two-character type. |
| Lexical.SingleCharSpelling | src/LoxScanner.cs:64-73 | Each single-character token type is spelled by exactly its character. |
| Lexical.NumberLexemeSplit | src/LoxScanner.cs:149-165 | A number lexeme is a non-empty digit run, optionally followed by a `.` and at least one more digit. |
| Lexical.NumberIsLongestMatch | src/LoxScanner.cs:149-165 | A number lexeme stopped at a non-digit, and at a `.` not followed by a digit, cannot be extended to a longer number lexeme. |
| Lexical.IdentifierIsLongestMatch | src/LoxScanner.cs:190-203 | A name stopped at a non-alphanumeric character cannot be extended to a longer name. |
| Lexing.BlockComment | src/LoxScanner.cs:123-147 | A comment body that closes ends right after a `*/`. An aborted one has reported nothing, or only "Unterminated block comment.". |
| Lexing.OpenComment | src/LoxScanner.cs:87-91 | After `/*` one more character is skipped, so a closed comment ends at least five characters after its `/`. |
| Lexing.DigitsEnd | src/LoxScanner.cs:151-154 | The digit loop stops at the first non-digit or at the end of the text. |
| Lexing.NumberEndIsLongestMatch | src/LoxScanner.cs:149-165 | `HandleNumber` consumes a number lexeme that is the longest one at the cursor. |
| Lexing.NameEndIsLongestMatch | src/LoxScanner.cs:190-203 | `HandleIdentifier` consumes a name that is the longest one at the cursor. |
| Lexing.NextIndex | src/LoxScanner.cs:79-86 | The scan for a character stops at its first occurrence, which it does not consume, or at the end of the text. With a line break this is a `//` comment; with `"` it is the string loop (src/LoxScanner.cs:169-177). |
| Lexing.Step | src/LoxScanner.cs:58-121 | One `ScanToken` consumes at least one character or aborts, never drops a diagnostic, and appends at most one token. |
| Lexing.Run | src/LoxScanner.cs:38-49 | The scan loop ends with the whole text consumed, unless a host exception escaped. |
| Lexing.Finish | src/LoxScanner.cs:45-48 | A crashed scan yields no tokens. Otherwise the tokens are kept and one EOF token with an empty lexeme is appended at the final cursor position. |
| Lexing.Lex | src/LoxScanner.cs:38-49 | A scan yields tokens exactly when the loop did not crash, and then the last token is EOF. |
| Lexing.StepToken | src/LoxScanner.cs:51-56 | A token appended by a step has the text from the token start to the cursor as its lexeme. It carries the start position, is well formed and is never EOF. |
| Lexing.StepRaisesOnlyInComments | src/LoxScanner.cs:87-91 | The only step that can throw is one that starts at a `/*`. |
| Lexing.OperatorStep | src/LoxScanner.cs:74-77 | An operator character followed by `=` yields the two-character token, otherwise the one-character token. Nothing else is consumed. |
| Lexing.LayoutStep | src/LoxScanner.cs:97-104 | Blanks yield no token and advance the column. A line break increments the line and resets the column to 1. |
| Lexing.UnexpectedStep | src/LoxScanner.cs:115-118 | An unexpected character reports "Unexpected character: c" at the position after it, and scanning resumes at the next character. |
| Lexing.LineCommentStep | src/LoxScanner.cs:79-86 | A `//` comment yields no token and stops before the next line break. |
| Lexing.StringStep | src/LoxScanner.cs:167-188 | A closed string yields a STRING token whose literal is the text between the quotes, and the line advances by the line breaks inside. An unclosed one reports "Unterminated string." and adds no token. |
| Lexing.WordStep | src/LoxScanner.cs:190-203 | A name is a longest match; its token is the keyword's type if the table has it, else IDENTIFIER. |
| Lexing.NumberStep | src/LoxScanner.cs:149-165 | A number is a longest match whose token carries the lexeme's decimal value. |
| Lexing.RunKeepsTokensOk | src/LoxScanner.cs:38-49 | The scan loop only appends tokens, every one well formed and none EOF, and it never drops a diagnostic. |
| Lexing.LexEndsWithEof | src/LoxScanner.cs:38-49 | A completed scan ends with exactly one EOF token, with an empty lexeme, at the final cursor position. Every earlier token is well formed and not EOF. |
| Lexing.ShortestCommentIsUnterminated | src/LoxScanner.cs:87-91 | `/**/` is reported as "Unterminated block comment." at line 1, column 5, because of the extra skip. |
| Lexing.OpenCommentAtEndRaises | src/LoxScanner.cs:87-91 | `/*` at the end of the text makes `Advance` index past the end. |
| Scanning.Scanner.constructor | src/LoxScanner.cs:36 | A new scanner is at offset 0, line 1, column 1, with no tokens and no errors. |
| Scanning.Scanner.Peek | src/LoxScanner.cs:227-238 | The character under the cursor, or `'\0'` at the end. |
| Scanning.Scanner.PeekNext | src/LoxScanner.cs:240-251 | The character after the cursor, or `'\0'` past the end. |
| Scanning.Scanner.Advance | src/LoxScanner.cs:205-209 | Returns the character under the cursor and moves the cursor and the column by one. |
| Scanning.Scanner.Match | src/LoxScanner.cs:211-225 | Consumes one character exactly when it is the expected one; otherwise nothing changes. |
| Scanning.Scanner.StartToken | src/LoxScanner.cs:51-56 | The token start is the current offset, line and column. |
| Scanning.Scanner.AddToken | src/LoxScanner.cs:260-264 | Appends one token: the text since the token start, stamped with the start line and column. |
| Scanning.Scanner.HandleError | src/LoxScanner.cs:258 | Appends one diagnostic at the current line and column. |
| Scanning.Scanner.SkipDigits | src/LoxScanner.cs:151-154 | The loop stops where `DigitsEnd` says, and the column moves with the cursor. |
| Scanning.Scanner.ConsumeNumber | src/LoxScanner.cs:151-163 | The cursor ends where `NumberEnd` says. |
| Scanning.Scanner.HandleNumber | src/LoxScanner.cs:149-165 | The new state is `NumberCase` of the state at the token start. |
| Scanning.Scanner.SkipName | src/LoxScanner.cs:192-195 | The loop stops where `NameEnd` says. |
| Scanning.Scanner.HandleIdentifier | src/LoxScanner.cs:190-203 | The new state is `WordCase` of the state at the token start. |
| Scanning.Scanner.SkipStringBody | src/LoxScanner.cs:169-177 | The loop stops at the next quote. The line advances by the line breaks passed, and the column follows the reset-then-advance rule. |
| Scanning.Scanner.HandleString | src/LoxScanner.cs:167-188 | The new state is `StringCase` of the state at the token start. |
| Scanning.Scanner.HandleBlockComment | src/LoxScanner.cs:123-147 | The recursive method ends as `BlockComment` says: cursor, line and column after the `*/`, the unterminated report, or an abort. |
| Scanning.Scanner.SkipLine | src/LoxScanner.cs:82-85 | The loop stops where `NextIndex` with a line break says. |
| Scanning.Scanner.HandleSlash | src/LoxScanner.cs:78-96 | The new state is `SlashCase` of the state at the token start. |
| Scanning.Scanner.ScanToken | src/LoxScanner.cs:58-121 | The new state is `Step` of the old one. |
| Scanning.Scanner.ScanTokens | src/LoxScanner.cs:38-49 | Returns `Finish(Run(…))` of the initial state, and the reported errors are those of `Run`. |
| Parsing.ExpressionAt | src/LoxParser.cs:68 | A rule that stops on a report names a token that no expression can begin with. |
| Parsing.BinaryAt | src/LoxParser.cs:70-118 | Each binary level moves forward and stays before EOF. Its reports name a token no expression begins with. |
| Parsing.ContinueAt | src/LoxParser.cs:70-118 | The loop of a binary level never moves backward, and fails only with a report or the missing-`)` exception. |
| Parsing.UnaryAt | src/LoxParser.cs:120-129 | `unary` moves forward and reports only at a token no expression begins with. |
| Parsing.OperandAt | src/LoxParser.cs:70-118 | The operand of a binary level moves forward and stays before EOF. |
| Parsing.PrimaryAt | src/LoxParser.cs:131-153 | `primary` consumes at least one token and stays before EOF. It reports at a token no primary begins with, or throws "Expect ')' after expression.". |
| Parsing.Parse | src/LoxParser.cs:10-20 | `Parse` returns null exactly when one error was reported, and escapes only with the missing-`)` message. |
| Parsing.ParseReports | src/LoxParser.cs:62-66 | A parse reports at most one error, "Expect expression.", at a token no expression begins with. |
| Parsing.Precedence | src/LoxParser.cs:70-118 | Each binary operator belongs to exactly one of the four levels. |
| Parsing.OperatorPrecedence | src/LoxParser.cs:70-118 | The level of an operator listed at a level is that level. |
| Parsing.ExpressionSound | src/LoxParser.cs:68-153 | A parsed expression's tree spells exactly the consumed token types. Its shape respects precedence and left associativity. |
| Parsing.BinarySound | src/LoxParser.cs:70-118 | The same for one binary level. |
| Parsing.ContinueSound | src/LoxParser.cs:70-118 | Each loop iteration makes the tree so far the left operand, so chains lean left. |
| Parsing.OperandSound | src/LoxParser.cs:70-118 | A level's operands are parsed at the next tighter level. |
| Parsing.UnarySound | src/LoxParser.cs:120-129 | Prefix `!` and `-` nest right-recursively with the outermost operator at the root. |
| Parsing.PrimarySound | src/LoxParser.cs:131-153 | A primary spells its tokens, parentheses included for a grouping. |
| Parsing.LiteralsKeepTheirToken | src/LoxParser.cs:133-144 | `true` and `false` become literals whose token literal is the boolean. NUMBER, STRING and NIL tokens are wrapped unchanged. |
| Parsing.ParsedTreeSpellsPrefix | src/LoxParser.cs:10-20 | A successful parse spells a non-empty prefix of the token list before EOF, in canonical shape. |
| Parsing.SubtractionLeansLeft | src/LoxParser.cs:96-106 | `1 - 2 - 3` parses as `(1 - 2) - 3`. |
| Parsing.ProductBindsTighter | src/LoxParser.cs:96-118 | `1 + 2 * 3` parses as `1 + (2 * 3)`. |
| Parsing.SumOfProduct | src/LoxParser.cs:96-118 | Whatever the three numbers, `a + b * c` parses as `a + (b * c)`: the product is the sum's right operand. |
| Parsing.UnclosedGroupCrashes | src/LoxParser.cs:26-33 | `(1` escapes with "Expect ')' after expression." and reports nothing through `Error`. |
| Parsing.StrayParenIsReported | src/LoxParser.cs:152 | `)` reports "Expect expression." at that token, and `Parse` returns null. |
| Parsing.Parser.constructor | src/LoxParser.cs:6 | A new parser is at the first token with no reports. |
| Parsing.Parser.IsAtEnd | src/LoxParser.cs:22 | True exactly when the current token is EOF. |
| Parsing.Parser.Peek | src/LoxParser.cs:23 | The token under the cursor. It is EOF exactly at the end. |
| Parsing.Parser.Previous | src/LoxParser.cs:24 | The token just before the cursor. |
| Parsing.Parser.Check | src/LoxParser.cs:43-50 | True exactly when the current token is not EOF and has the type. |
| Parsing.Parser.Advance | src/LoxParser.cs:35-42 | Moves one token unless at EOF, so the cursor never passes EOF. Returns the previous token. |
| Parsing.Parser.Match | src/LoxParser.cs:52-60 | Advances by exactly one token when the current token is not EOF and its type is listed; otherwise the cursor is unchanged. |
| Parsing.Parser.Consume | src/LoxParser.cs:26-33 | Returns and consumes the token when it has the type; otherwise fails with the message. |
| Parsing.Parser.Error | src/LoxParser.cs:62-66 | Raises the `Error` event once, with the token and the message. |
| Parsing.Parser.ParseExpression | src/LoxParser.cs:10-20 | Returns and reports what the `ExpressionAt` rule gives from the cursor. |
| Parsing.Parser.Expression | src/LoxParser.cs:68 | Agrees with `ExpressionAt`. |
| Parsing.Parser.Binary | src/LoxParser.cs:70-118 | The left-associative loop of each level agrees with `BinaryAt`. |
| Parsing.Parser.Operand | src/LoxParser.cs:70-118 | Agrees with `OperandAt`. |
| Parsing.Parser.Unary | src/LoxParser.cs:120-129 | Agrees with `UnaryAt`. |
| Parsing.Parser.Primary | src/LoxParser.cs:131-153 | Agrees with `PrimaryAt`. |
| Parsing.Parser.Group | src/LoxParser.cs:145-150 | After `(`, parses an expression and consumes the `)`. Agrees with the grouping branch of `PrimaryAt`, including the missing-`)` exception. |
| Resolution.AfterDeclare | src/LoxResolver.cs:180-195 | `Declare` touches only the top scope and records no distance. With no scope it changes nothing. A name already in the top scope is reported as "Variable with this name already declared in this scope." at the name, and the pass crashes. Any other name is entered in the top scope as false, and nothing is reported. |
| Resolution.AfterDefine | src/LoxResolver.cs:197-205 | `Define` never reports. With no scope it changes nothing. Otherwise it maps the name to true in the top scope and changes nothing else. |
| Resolution.Distance | src/LoxResolver.cs:209-233 | A found distance is less than the stack depth. |
| Resolution.AfterResolveLocal | src/LoxResolver.cs:209-233 | `ResolveLocal` records the expression with the innermost distance when some scope holds the name, and records nothing exactly when none does. It changes nothing else. |
| Resolution.DistanceIsInnermost | src/LoxResolver.cs:209-233 | The distance counts the scopes between the top and the innermost scope holding the name. There is none exactly when no scope holds it. |
| Resolution.AfterExpr | src/LoxResolver.cs:14-85 | Resolving an expression keeps the scope stack and the function kind, and only appends to the logs. |
| Resolution.AfterExprs | src/LoxResolver.cs:31 | The same for a call's argument list. |
| Resolution.AfterStmt | src/LoxResolver.cs:87-168 | A statement touches only the top scope and never shrinks the logs. A block leaves the stack as it found it. |
| Resolution.AfterBlock | src/LoxResolver.cs:87-93 | A block pushes one scope and pops it, leaving the stack unchanged. |
| Resolution.AfterFunctionStmt | src/LoxResolver.cs:106-113 | A function declaration only touches the top scope. |
| Resolution.AfterReturn | src/LoxResolver.cs:133-146 | From any state: at top level, the first new diagnostic is "Can't return from top-level code." at the keyword. Inside a function, `return` only resolves its value, if it has one. |
| Resolution.AfterVar | src/LoxResolver.cs:152-161 | From any state: with no scope, only the initializer is resolved. A name already in the top scope is reported as already declared, and the pass crashes before the initializer. Otherwise, after the statement the top scope maps the name to true. |
| Resolution.AfterStmts | src/LoxResolver.cs:170 | A statement list only touches the top scope. |
| Resolution.AfterParams | src/LoxResolver.cs:241-245 | The parameter loop touches only the top scope and never shrinks the logs. |
| Resolution.AfterFunction | src/LoxResolver.cs:235-250 | `ResolveFunction` restores the scope stack and the previous function kind. |
| Resolution.Resolve | src/LoxResolver.cs:170 | A pass that does not crash ends with no scope open and at top level. |
| Resolution.GlobalExprsAreLeftAlone | src/LoxResolver.cs:76-85 | With no scope, an expression records no distance and reports nothing. |
| Resolution.GlobalArgumentsAreLeftAlone | src/LoxResolver.cs:28-33 | The same for an argument list. |
| Resolution.OneStatement | src/LoxResolver.cs:170 | Resolving a one-statement list is resolving the statement. |
| Resolution.TwoStatements | src/LoxResolver.cs:170 | Statements are resolved in order. |
| Resolution.DeclareThenDefine | src/LoxResolver.cs:152-161 | In a single empty scope, declaring maps the name to false and defining then maps it to true. |
| Resolution.SelfInitializerStep | src/LoxResolver.cs:152-161 | From any state whose top scope does not hold `a`, `var a = a;` resolves its initializer while `a` is mapped to false. The use is reported as "Can't read local variable in its own initializer." and recorded at distance 0, and `a` ends up mapped to true. |
| Resolution.UnfinishedReadIsReported | src/LoxResolver.cs:76-85 | From any state: reading a name that the top scope maps to false reports "Can't read local variable in its own initializer." at the use, and still records distance 0. |
| Resolution.OwnInitializerIsReported | src/LoxResolver.cs:76-85 | `{ var a = a; }` reports that error at the use, and leaves the stack empty. |
| Resolution.RedeclarationCrashes | src/LoxResolver.cs:189-194 | `{ var a; var a; }` reports "Variable with this name already declared in this scope." and then crashes. |
| Resolution.TopLevelReturnIsReported | src/LoxResolver.cs:133-146 | A top-level `return` reports "Can't return from top-level code.". |
| Resolution.FirstClash | src/LoxResolver.cs:241-245 | Finds the first parameter whose name is already taken or repeats an earlier one. Every parameter before it is fresh and distinct. With none found, all of them are. |
| Resolution.ParamStep | src/LoxResolver.cs:241-245 | One round of the loop on a fresh name adds it to the top scope as true and reports nothing. |
| Resolution.ParamsAreDeclared | src/LoxResolver.cs:241-245 | From any state with a scope, and with no clash: every parameter ends up mapped to true in the top scope. The names already there keep their marks, no other name is added, and nothing is reported. |
| Resolution.ParamClashIsReported | src/LoxResolver.cs:189-194 | With a clash, the loop reports the first clashing parameter as already declared, reports nothing else, and crashes. |
| Resolution.ParameterResolvesInFunctionScope | src/LoxResolver.cs:235-250 | In `fun f(x) { return x; }` the use of `x` is at distance 0, and the function kind is restored afterwards. |
| Resolution.Resolver.constructor | src/LoxResolver.cs:9-10 | A new resolver has no scopes, is at top level, and has empty logs. |
| Resolution.Resolver.TriggerError | src/LoxResolver.cs:207 | Appends one diagnostic at the token's position. |
| Resolution.Resolver.BeginScope | src/LoxResolver.cs:176 | Pushes an empty scope. |
| Resolution.Resolver.EndScope | src/LoxResolver.cs:178 | Pops the top scope. |
| Resolution.Resolver.Declare | src/LoxResolver.cs:180-195 | The new state is `AfterDeclare` of the old. |
| Resolution.Resolver.Define | src/LoxResolver.cs:197-205 | The new state is `AfterDefine` of the old. |
| Resolution.Resolver.ResolveLocal | src/LoxResolver.cs:209-233 | The loop over the stack records `Distance`, or nothing. |
| Resolution.Resolver.ResolveExpr | src/LoxResolver.cs:14-85 | The new state is `AfterExpr` of the old. |
| Resolution.Resolver.ResolveExprs | src/LoxResolver.cs:31 | The new state is `AfterExprs` of the old. |
| Resolution.Resolver.ResolveStmt | src/LoxResolver.cs:87-168 | The new state is `AfterStmt` of the old. |
| Resolution.Resolver.ResolveBlock | src/LoxResolver.cs:87-93 | The new state is `AfterBlock` of the old. |
| Resolution.Resolver.ResolveStmts | src/LoxResolver.cs:170 | The new state is `AfterStmts` of the old. |
| Resolution.Resolver.ResolveFunction | src/LoxResolver.cs:235-250 | The new state is `AfterFunction` of the old. |
| Resolution.Resolver.DeclareParams | src/LoxResolver.cs:241-245 | The new state is `AfterParams` of the old. |
| Runtime.ErrorAt | src/LoxRuntimeErrorException.cs:3-7 | A runtime error carries the token's line and column and the message. |
| Runtime.WithAssignment | src/LoxEnvironment.cs:26-41 | Assignment keeps the number of scopes and the names each one binds. |
| Runtime.WithDefinition | src/LoxEnvironment.cs:9 | `Define` writes only the innermost scope, and the name then looks up to the value. |
| Runtime.Lookup | src/LoxEnvironment.cs:11-24 | With no scope nothing is found. A name the innermost scope binds is found there. |
| Runtime.LookupFindsInnermost | src/LoxEnvironment.cs:11-21 | `Get` yields the value from the innermost scope that binds the name. |
| Runtime.LookupMissesUnbound | src/LoxEnvironment.cs:23 | A name bound nowhere in the chain is not found. |
| Runtime.VariableValue | src/LoxEnvironment.cs:11-24 | `Get` succeeds exactly when the name is bound, with the innermost binding. Otherwise it raises "Undefined variable 'name'." at the name. It never crashes. |
| Runtime.AssignResult | src/LoxEnvironment.cs:26-41 | `Assign` succeeds exactly when the name is bound, and the name then looks up to the new value. Otherwise it raises "Undefined variable 'name'." at the name and leaves the chain as it was. It never crashes and keeps the number of scopes. |
| Runtime.AssignThenLookup | src/LoxEnvironment.cs:26-38 | After assigning a bound name, it looks up to the new value. |
| Runtime.AssignLeavesOthers | src/LoxEnvironment.cs:26-38 | Assignment does not change any other name's value. |
| Runtime.AssignRewritesInnermost | src/LoxEnvironment.cs:26-38 | Assignment overwrites only the innermost binding of the name and leaves every other scope unchanged. |
| Runtime.DefinitionShadows | src/LoxEnvironment.cs:9 | Defining a name changes no other name and no outer scope. |
| Runtime.Environment.constructor | src/LoxEnvironment.cs:7 | A new scope is empty and enclosed by the given one. |
| Runtime.Environment.Define | src/LoxEnvironment.cs:9 | The chain's frames become `WithDefinition` of the old frames. |
| Runtime.Environment.Get | src/LoxEnvironment.cs:11-24 | Returns the innermost binding, else raises "Undefined variable 'name'." at the name. |
| Runtime.Environment.Assign | src/LoxEnvironment.cs:26-41 | Overwrites the innermost binding, else raises "Undefined variable 'name'." and changes nothing. |
| Runtime.FindMethod | src/LoxClass.cs:22 | Looks only in the class's own table, and finds nothing exactly when the name is absent. |
| Runtime.ClassArity | src/LoxClass.cs:3-5 | A class's arity is its `init` method's parameter count, or 0 without one. |
| Runtime.ThisFrame | src/LoxInstance.cs:16 | The scope of a bound method binds only `this`, to the instance. |
| Runtime.Bind | src/LoxInstance.cs:16 | A bound method keeps the declaration and closes over a fresh scope holding `this`, enclosed by the method's closure. |
| Runtime.PropertyOf | src/LoxInstance.cs:6-20 | A field shadows a method of the same name. Otherwise the class's method is found. "Undefined property 'name'" is raised at the name exactly when neither exists. It never crashes. |
| Runtime.SetThenGet | src/LoxInstance.cs:6-22 | After `Set(n, v)`, `Get(n)` finds the field `v`, and every other name is looked up as before. |
| Runtime.FunctionText | src/Functions/LoxFunction.cs:19 | A function prints as `<fn NAME>`. |
| Runtime.ClassText | src/LoxClass.cs:20 | A class prints as its name. |
| Runtime.InstanceText | src/LoxInstance.cs:4 | An instance prints as its class name followed by ` instance`. |
| Runtime.FunctionArity | src/Functions/LoxFunction.cs:3 | A function's arity is its number of declared parameters. |
| Runtime.LoxInstance.constructor | src/LoxInstance.cs:1-3 | A new instance has no fields. |
| Runtime.LoxInstance.Get | src/LoxInstance.cs:6-20 | Returns the field value; otherwise a fresh binding of the class method to this instance; otherwise raises "Undefined property 'name'", without a trailing period. |
| Runtime.LoxInstance.Set | src/LoxInstance.cs:22 | Writes exactly one field, leaves the others unchanged, and returns the value. |
| Semantics.IsTruthy | src/LoxInterpreter.cs:214-222 | False exactly for `nil` and `false`. |
| Semantics.IsEqual | src/LoxInterpreter.cs:225-233 | `nil` equals `nil` and nothing else; otherwise value equality, so a number never equals a string. |
| Semantics.Stringify | src/LoxInterpreter.cs:255-264 | `print` writes `nil`, lower-case `true`/`false`, a number through the print format, a string without quotes, a function as `<fn NAME>`, a class as its name, and an instance ending in ` instance`. |
| Semantics.BinaryValue | src/LoxInterpreter.cs:62-111 | Comparison, `-`, `*` and `/` raise "Operands must be numbers." unless both operands are numbers. `+` succeeds exactly on two numbers or two strings, and concatenates strings. `/` raises "Divide by 0 detected." exactly for a numeric zero divisor. `==` and `!=` use `IsEqual`. Errors sit at the operator, and an unlisted operator crashes. |
| Semantics.UnaryValue | src/LoxInterpreter.cs:144-158 | `!` negates truthiness of any value. `-` negates a number and raises "Operand must be a number." otherwise. |
| Semantics.Eval | src/LoxInterpreter.cs:55-160 | Evaluation never changes which names are bound where. |
| Semantics.Exec | src/LoxInterpreter.cs:162-207 | A statement defines names only in the innermost scope, and keeps the lines printed before it. |
| Semantics.ExecBlock | src/LoxInterpreter.cs:162-166 | A block leaves as many scopes as it found, each binding the same names, on every exit path. |
| Semantics.ExecStmts | src/LoxInterpreter.cs:40-43 | A statement list defines names only in the innermost scope. |
| Semantics.ExecStmtsAppend | src/LoxInterpreter.cs:19-32 | Running `a` then `b` is running `a`, then `b` only if `a` ended normally. |
| Semantics.Interpret | src/LoxInterpreter.cs:19-32 | A run keeps the lines printed before it and the number of scopes. It reports at most one runtime error, and none when it crashed. |
| Semantics.InterpretExpression | src/LoxInterpreter.cs:7-17 | The value's text is printed exactly when evaluation ends normally. A runtime error is reported exactly when one is raised, and the run crashes exactly when evaluation does. |
| Semantics.InterpretReportsFirstError | src/LoxInterpreter.cs:19-32 | The first runtime error stops the run and is reported once, with its own position. |
| Semantics.EvalWithoutAssignmentKeepsFrames | src/LoxInterpreter.cs:55-60 | Only assignment changes variables. |
| Semantics.BlockDefinitionsDoNotLeak | src/LoxInterpreter.cs:162-166 | A name unbound before a block is still unbound after it. |
| Semantics.Division | src/LoxInterpreter.cs:101-107 | `5 / 0` raises "Divide by 0 detected." at the operator; `5 / 2` is 2.5. |
| Semantics.Concatenation | src/LoxInterpreter.cs:88-97 | `"a" + "b"` is `"ab"`; `1 + "b"` raises the two-numbers-or-two-strings error. |
| Semantics.NoCoercion | src/LoxInterpreter.cs:225-233 | `print 1 == "1";` prints `false`. |
| Semantics.OuterPlusOne | src/LoxInterpreter.cs:62-97 | `a + 1` reads `a` from the enclosing scope. |
| Semantics.ShadowingDeclaration | src/LoxInterpreter.cs:197-207 | `var a = a + 1;` in an inner scope reads the outer `a` and defines an inner one. |
| Semantics.PrintInnermost | src/LoxInterpreter.cs:185-190 | `print a;` prints the innermost `a`. |
| Semantics.ShadowingBlock | src/LoxInterpreter.cs:162-166 | A block shadowing `a` prints 2 and leaves the outer `a` at 1. |
| Semantics.ShadowingInBlock | src/LoxInterpreter.cs:19-32 | `var a = 1; { var a = a + 1; print a; } print a;` prints 2 then 1. |
| Semantics.UndefinedVariableIsReported | src/LoxInterpreter.cs:19-32 | `print a;` with `a` unbound reports "Undefined variable 'a'." at `a` and prints nothing. |
| Interpreting.Interpreter.constructor | src/LoxInterpreter.cs:3 | A new interpreter starts in one empty global scope. |
| Interpreting.Interpreter.Evaluate | src/LoxInterpreter.cs:53 | The outcome and the new scope chain are what `Eval` gives. |
| Interpreting.Interpreter.EvaluateBinary | src/LoxInterpreter.cs:62-111 | Evaluates the left operand, then the right, then applies the operator; the first failure is the result. Agrees with `Eval`. |
| Interpreting.Interpreter.EvaluateUnary | src/LoxInterpreter.cs:144-158 | Evaluates the operand, then applies the operator; a failing operand is the result. Agrees with `Eval`. |
| Interpreting.Interpreter.EvaluateAssign | src/LoxInterpreter.cs:55-60 | Evaluates the value and stores it in the nearest scope binding the name, or raises the undefined-variable error. Agrees with `Eval`. |
| Interpreting.Interpreter.Execute | src/LoxInterpreter.cs:51 | Agrees with `Exec`, and the current scope is the same afterwards. |
| Interpreting.Interpreter.ExecutePrint | src/LoxInterpreter.cs:185-190 | Appends the value's text to the output, or fails with the expression and prints nothing. Agrees with `Exec`. |
| Interpreting.Interpreter.ExecuteVar | src/LoxInterpreter.cs:197-207 | Defines the name in the current scope as the initializer's value, or `nil` without one. Agrees with `Exec`. |
| Interpreting.Interpreter.ExecuteBlock | src/LoxInterpreter.cs:34-49 | Runs the statements in the given scope, then restores the previous scope on every exit path. |
| Interpreting.Interpreter.ExecuteStatements | src/LoxInterpreter.cs:40-43 | The loop agrees with `ExecStmts`, and stops at the first statement that does not end normally. |
| Interpreting.Interpreter.Interpret | src/LoxInterpreter.cs:19-32 | Agrees with `Semantics.Interpret`, and appends at most the first runtime error to the error log. |
| Interpreting.Interpreter.InterpretExpression | src/LoxInterpreter.cs:7-17 | Prints the value, or reports the runtime error. |
| Callables.BindingsNames | src/Functions/LoxFunction.cs:9-13 | The parameter scope binds exactly the parameter names. |
| Callables.BindingsBindArguments | src/Functions/LoxFunction.cs:9-13 | Parameter i is bound to argument i, unless a later parameter has the same name. |
| Callables.CallResult | src/Functions/LoxFunction.cs:5-17 | Too few arguments crash the call. A call that completes yields `nil`, keeps the closure's shape and keeps the lines printed before it. |
| Callables.BindParameters | src/Functions/LoxFunction.cs:7-13 | The parameters go into a fresh scope enclosed by the closure, and nothing that existed before is changed. |
| Callables.CallFunction | src/Functions/LoxFunction.cs:5-17 | The body runs in the parameter scope through `ExecuteBlock`, the interpreter's scope is the same before and after, and the result is `CallResult`. |
| Callables.CallClass | src/LoxClass.cs:7-17 | Returns a new instance of the class with no fields. `init`, when present, runs on it with `this` bound; its result is dropped unless it failed. Without `init` nothing is printed. |
| Printing.Transform | src/AstPrinter.cs:160-184 | Writes nothing for no parts, and otherwise starts with a space. |
| Printing.Parenthesize | src/AstPrinter.cs:134-147 | The rendering opens with `(` and the name and closes with `)`. There is something between them exactly when there are operands, and then it starts with a space. |
| Printing.Parenthesize2 | src/AstPrinter.cs:149-158 | The same for `Parenthesize2` and its parts. |
| Printing.LiteralText | src/AstPrinter.cs:111-120 | A literal other than a number renders as `print` writes the value it denotes. A number goes through the printer's own format. |
| Printing.PrintExpr | src/AstPrinter.cs:101-132 | No contract of its own; `ExprBalanced`, `OperatorLayouts` and `CallLayout` state what it renders. |
| Printing.PrintStmt | src/AstPrinter.cs:9-99 | No contract of its own; `StmtBalanced`, `StatementLayouts` and `ClassHeader` state what it renders. |
| Printing.PrintFun | src/AstPrinter.cs:46-66 | No contract of its own; `FunBalanced` and `FunHeader` state what it renders. |
| Printing.PrintStmts | src/AstPrinter.cs:14-18 | Each statement of a list is rendered by the statement printer. |
| Printing.ExprBalanced | src/AstPrinter.cs:101-132 | Every expression renders to a balanced parenthesized form when the words it copies hold no parentheses. |
| Printing.StmtBalanced | src/AstPrinter.cs:9-99 | The same for every statement. |
| Printing.FunBalanced | src/AstPrinter.cs:46-66 | The same for a function declaration. |
| Printing.SpacedBalanced | src/AstPrinter.cs:134-147 | A space followed by a balanced rendering, repeated, stays balanced. |
| Printing.ParenthesizeBalanced | src/AstPrinter.cs:134-147 | `Parenthesize` of a plain head and balanced operands is balanced. |
| Printing.Parenthesize2Balanced | src/AstPrinter.cs:149-158 | The same for `Parenthesize2`. |
| Printing.TransformBalanced | src/AstPrinter.cs:160-184 | `Transform` of balanced parts, nested lists included, is balanced. |
| Printing.TransformTexts | src/AstPrinter.cs:160-184 | `Transform` of plain renderings puts a space before each. |
| Printing.CallLayout | src/AstPrinter.cs:105 | A call prints as `(call f  a b)`: the nested argument list adds a second space, and there is a trailing space with no arguments. |
| Printing.OperatorLayouts | src/AstPrinter.cs:103-130 | Binary and logical nodes print as `(op left right)` and unary as `(op operand)`, with the operator's lexeme. A grouping prints as `(group inner)`. |
| Printing.StatementLayouts | src/AstPrinter.cs:9-22 | Collects the layouts of `return` and `if` below. An empty block prints `(block)`. |
| Printing.ReturnLayouts | src/AstPrinter.cs:80-87 | A bare return prints `(return)` and one with a value `(return v)`. |
| Printing.IfThenLayout | src/AstPrinter.cs:68-73 | An `if` without else prints `(if c t)`. |
| Printing.IfElseLayout | src/AstPrinter.cs:75 | An `if` with an else branch prints `(if-else c t e)`. |
| Printing.ClassHeader | src/AstPrinter.cs:24-42 | A class header writes `!` straight after the name. |
| Printing.FunHeader | src/AstPrinter.cs:46-66 | A function header writes `!` after the name. Parameters are separated by single spaces, and body renderings are joined with nothing between them. |
| Printing.LiteralAgreesWithPrint | src/AstPrinter.cs:111-120 | `nil`, booleans and strings render as `print` writes them: `nil`, `true`/`false`, and the raw string without quotes. Numbers use each side's own format. |

## Left out

- Host I/O is not modelled:
  - the command line, file reading and exit codes (`src/main.cs`);
  - console output, which is the `output` sequence here;
  - the `Error` events, which are logs of diagnostics here.
- `clock` (`src/Functions/LoxClock.cs`) reads the wall clock and is not modelled.
- Number parsing and formatting:
  - a NUMBER literal is the exact decimal value of its lexeme, not the host's `double.Parse` result;
  - each number rendering (`"0.0###"`, `"0.##########"`, `"0.0#########"`) is a `NumberFormat` parameter.
- Text is a sequence of Unicode scalar values. The host indexes UTF-16 code units, so there a character above U+FFFF counts as two: it moves the column by 2, yields two "Unexpected character" reports outside a string, and shifts every later column on its line by one. The model counts it as one.
- Numbers are exact reals. 64-bit floating-point rounding, NaN, infinities and negative zero are not modelled.
- Runtime.Bind: the source calls `LoxFunction.Bind` but does not define it. The model follows the usual design: a fresh scope binding `this`, enclosed by the method's closure.
- Interpreter node kinds whose visitor throws `NotImplementedException` evaluate to `Crash`. These are:
  - call, get, set, super and this expressions;
  - class, function, if, return and while statements;
  - break and continue, which have no interpreter visitor at all.
- Semantics.Eval: the logical-expression visitor calls itself on the same node, so it never returns in the source. It is modelled as `Crash` rather than as divergence.
- Resolver stub visitors (get, set, super, this, class) set the `crashed` flag.
- `Interpreter.Resolve` is not part of this model. The resolver's distances are only recorded; the modelled interpreter, like the source, looks variables up by name.
- Callables.CallFunction: with too few arguments the source throws inside the parameter loop. The model checks the count before allocating the scope, which is observably the same.
- Function, class and instance values compare with Dafny equality. This stands in for the host's record and reference equality in `IsEqual`.
- Printing.StmtBalanced: break and continue have no printer visitor, so only trees without them are rendered.
- Printing.ExprBalanced: holds only when lexemes, string literals and rendered numbers contain no parentheses of their own.
- Ast.ExprPosition: node positions are computed as each node's base constructor does, but no property about them is proved.
- Parsing: only the expression grammar in the source is modelled. No statement parser is defined there.
