# lochx core, modelled in Dafny

lochx is a Lox-style scripting language written in Rust, built up over
several generations of code that do not fully agree with each other. This
project models each generation against its own types:

- **Tree-walking front end.**
  - The single-character stub scanner (`OldScanner`).
  - The recursive-descent parser over a token list (`Parser`), with the
    grammar it guarantees (`ParseTree`) and the syntax tree it builds (`Ast`).
  - The static scope resolver (`Resolver`).
- **First interpreter generation.**
  - An expression tree (`OldExpr`), its S-expression printer (`AstPrinter`)
    and its evaluator (`OldInterpreter`).
  - Values (`Literal`), the flat variable store (`Environment`) and the
    globals-based functions (`OldCallable`).
- **Second generation.** Values, closures, fields-only classes and
  instances (`TypesRuntime`).
- **Third generation.**
  - Classes with methods along a superclass chain, `init`-derived arity,
    initializers, and instances whose fields shadow methods (`InterpRuntime`).
  - The shared source buffer (`SourceBuffer`).
- **Bytecode front end.**
  - Tokens with byte spans (`VmToken`) and the full scanner: operators,
    strings, numbers, identifiers, keywords, comments and line counting
    (`VmScanner`).
- **Bytecode machine.**
  - The instruction set with its encoding, decoding and disassembly (`VmOpCode`).
  - The stack machine's step rules (`VmMachine`).
  - The older one-instruction chunk and its disassembler (`VmChunk`).

Shared pieces:
- `Wrappers`: `Option`/`Result`.
- `LoxToken`: the parser's tokens.
- `Num`: numbers as exact reals.
- `Utf8`: the UTF-8 byte lengths that Rust's string offsets count.
- `Frames`: the environment frames that calls build, and how a body run ends.

Code that mutates state is modelled as classes with `modifies` clauses:
- the scanners, the parser cursor and the resolver's scope stack;
- the environments and the instances;
- the source buffer, the byte vector and the machine.

Each such method is tied to a specification function of the old state, or
states its result outright. Pure code is modelled as functions with lemmas.

Where the code and the Lox language as its book (*Crafting Interpreters*)
describes it disagree, the model follows the code:
- **Resolver:**
  - `resolve_local` reports a resolution for *every* enclosing scope that
    holds the name, not only the nearest (`Resolver.ShadowedNameResolvedTwice`).
  - Declaring a name twice in one scope is no error
    (`Resolver.RedeclarationHarmless`).
  - `var x = x;` in a local scope is only reported, and resolution carries
    on (`Resolver.SelfReferenceReported`).
- **First evaluator:**
  - `==` holds only for two equal numbers or two equal strings, so
    `nil == nil` and `true == true` are false.
  - Mismatched operands of `+ - * / < <= > >=` panic in `todo!()`; they do
    not give `nil`.
- **First environment:** `get` returns an option and raises no
  `UndefinedVariable`.
- **Parser:** an empty condition or increment clause of `for` needs its
  delimiter twice, so `for (;;)` is rejected. `Parser.Parser.Statement`
  uses this as-written `for`; the corrected clauses are modelled beside it
  (see "## Findings").

## Model

| member | source | states |
|---|---|---|
| OldScanner.TokenOf | src/scanner.rs:52-62 | each of the ten recognised characters gives its own token, never `EOF` |
| OldScanner.TokenOfInjective | src/scanner.rs:52-62 | different recognised characters give different tokens |
| OldScanner.TokensOf | src/scanner.rs:40-48 | one token per character, in input order |
| OldScanner.Scanner.constructor | src/scanner.rs:31-38 | a new scanner is at line 1 with both cursors at 0 |
| OldScanner.Scanner.IsAtEnd | src/scanner.rs:68-70 | the cursor has reached the end of the source |
| OldScanner.Scanner.Advance | src/scanner.rs:72-76 | returns the character at `current` and moves it by one |
| OldScanner.Scanner.ScanToken | src/scanner.rs:50-66 | consumes exactly one character and returns its token |
| OldScanner.Scanner.ScanTokens | src/scanner.rs:40-48 | the tokens of the rest of the source plus `EOF`: the count is the remaining length plus one, and the last token is the only `EOF` |
| OldScanner.ScanEmpty | src/scanner.rs:41-47 | the empty source scans to exactly `[EOF]` |
| Parser.Parser.constructor | src/parser.rs:60-62 | the cursor starts at 0 over a token list that ends in `EOF` |
| Parser.Parser.Peek | src/parser.rs:623-625 | the token at the cursor, which `Valid` keeps in range |
| Parser.Parser.Previous | src/parser.rs:628-630 | the token just before the cursor |
| Parser.Parser.IsAtEnd | src/parser.rs:618-620 | the token at the cursor is `EOF` |
| Parser.Parser.Check | src/parser.rs:604-609 | true exactly when the current token has the type and is not the end |
| Parser.Parser.Advance | src/parser.rs:611-616 | steps over the current token unless it is `EOF` and returns the token just passed, so the cursor stays a valid index |
| Parser.Parser.MatchAny | src/parser.rs:555-563 | advances by exactly one token when the current type is in the list and is not `EOF`, and otherwise leaves the cursor unchanged |
| Parser.Parser.Consume | src/parser.rs:567-577 | returns and passes a token of the expected type; otherwise an error naming the expectation and the token found, without moving |
| Parser.Parser.Synchronize | src/parser.rs:580-602 | advances at least once unless at `EOF`; stops at the end, just after a `;`, or before a declaration keyword, and skips no such boundary on the way |
| Parser.Parser.SkipToBoundary | src/parser.rs:583-601 | the loop of `synchronize`: stops at the first boundary after its start |
| Parser.Parser.SkipOne | src/parser.rs:600 | one loop step advances by one token and passes no boundary |
| Parser.Parser.Expression | src/parser.rs:319-321 | on success consumes tokens and returns a well-nested expression; every error names the token it is about |
| Parser.Parser.Assignment | src/parser.rs:324-342 | after an `or`-level operand and `=`, the result is exactly what `AssignTarget` makes of that operand, the `=` token and the parsed value; every assignment it returns came that way; otherwise the `or`-level expression |
| Parser.AssignTarget | src/parser.rs:329-339 | succeeds exactly when the target is a variable, giving the assignment of the value to its name; any other target is `InvalidAssignmentTarget` naming the `=` token |
| Parser.Parser.LogicOr | src/parser.rs:345-359 | a left-associative `or` chain over operands at the `and` level or tighter |
| Parser.Parser.LogicAnd | src/parser.rs:362-376 | a left-associative `and` chain over operands at the equality level or tighter |
| Parser.Parser.Equality | src/parser.rs:379-393 | a left-associative `==`/`!=` chain with strictly tighter right operands |
| Parser.Parser.Comparison | src/parser.rs:396-415 | a left-associative `< <= > >=` chain with strictly tighter right operands |
| Parser.Parser.Term | src/parser.rs:418-432 | a left-associative `+`/`-` chain with strictly tighter right operands |
| Parser.Parser.Factor | src/parser.rs:435-449 | a left-associative `*`/`/` chain with strictly tighter right operands |
| Parser.Parser.UnaryExpr | src/parser.rs:452-463 | prefix `!`/`-` nest to the right over a unary or tighter operand |
| Parser.Parser.CallExpr | src/parser.rs:466-478 | calls chain on a primary |
| Parser.Parser.FinishCall | src/parser.rs:481-501 | builds a call on the given callee whose arguments are exactly the `collected` ones, at most 256; this call's own `TooManyArguments` error fires only once 256 of its own arguments have been collected, and any other error (a nested call's limit included) came out of an argument's expression (`fromArgument`) |
| Parser.Commas | src/parser.rs:484-492 | the number of `,` tokens in a token list, never more than its length; the limit checks count against it |
| Parser.CommasSplit | src/parser.rs:484-492 | the commas of a token range are those of its two parts, which is how the argument and parameter counts are tracked |
| Parser.Parser.LimitWidens | src/parser.rs:485-487 | a limit error reached in a nested list still lies after 256 commas read since any earlier point |
| Parser.Parser.CommaRead | src/parser.rs:489 | reading a list item and its comma adds a comma to the count |
| Parser.Parser.Primary | src/parser.rs:504-553 | a literal, a name or a parenthesized expression at the tightest level, else an error |
| Parser.Parser.PrimaryToken | src/parser.rs:520-552 | the number, string, name and grouping cases of `primary` |
| Parser.Parser.ExprStmt | src/parser.rs:295-299 | an expression statement, closed by `;` |
| Parser.Parser.PrintStmt | src/parser.rs:262-266 | a print statement, closed by `;` |
| Parser.Parser.ReturnStmt | src/parser.rs:269-280 | a return statement whose missing value is `nil` |
| Parser.Parser.VarDeclaration | src/parser.rs:143-157 | a variable declaration named by the first token; when the next token is not `=` the initializer is `Literal(Nil)` |
| Parser.Parser.VarHead | src/parser.rs:144-151 | the name and the initializer of a declaration, with the same `nil` rule |
| Parser.Parser.VarInitializer | src/parser.rs:145-151 | without a leading `=` it is `Literal(Nil)` and consumes nothing; otherwise a parsed expression |
| Parser.Parser.WhileStmt | src/parser.rs:283-292 | a while statement with a well-nested condition and a parsed body |
| Parser.Parser.IfStmt | src/parser.rs:244-259 | an if statement with an optional else branch |
| Parser.Parser.OptionalClauseAsWritten | src/parser.rs:192-196 | as written, `match_any` consumes the delimiter of an empty clause |
| Parser.Parser.ClauseAsWritten | src/parser.rs:192-206 | as written, an empty clause needs its delimiter twice |
| Parser.Parser.OptionalClause | src/parser.rs:192-196 | corrected: an empty clause leaves its delimiter in place |
| Parser.Parser.Clause | src/parser.rs:192-206 | corrected: an empty clause is `None` and consumes exactly its one delimiter |
| Parser.Parser.ForStmt | src/parser.rs:183-241 | as written: a `for` loop parses to the `while` desugaring of exactly the clauses `ForClauses` returned and the parsed body (both given back as ghost outputs), and an empty initializer followed by an empty condition parses only if a third `;` follows |
| Parser.Parser.ForInitializer | src/parser.rs:184-191 | `(` then either `;` (no initializer, two tokens consumed) or a parsed declaration or expression statement |
| Parser.Parser.InitializerStmt | src/parser.rs:187-191 | a `var` declaration or an expression statement |
| Parser.Parser.ForClauses | src/parser.rs:184-206 | as written: the initializer, condition and increment, each optional and well formed; for every token list, `(` `;` `;` parses only when a third `;` follows, so `for (;;)` is rejected |
| Parser.Parser.ForClausesCorrected | src/parser.rs:184-206 | corrected: the same clauses through `Clause`, and `( ; ; )` parses to three empty clauses consuming exactly four tokens |
| Parser.Parser.ForStmtCorrected | src/parser.rs:183-241 | corrected: the result is the desugaring of exactly the clauses `ForClausesCorrected` returned and the parsed body (ghost outputs `clauses`, `body`); `for (;;) body` becomes the bare `while (true)` loop over `body` |
| Parser.Parser.BlockStmt | src/parser.rs:303-305 | a block statement |
| Parser.Parser.Block | src/parser.rs:309-316 | declarations up to `}`, each well formed or a recovered `ParseError`; its own failure is a missing `}` |
| Parser.Parser.FunctionDeclaration | src/parser.rs:101-140 | a function named by the first token, with at most 256 identifier parameters and a block body; `TooManyArguments` only after 256 parameters, each followed by a comma |
| Parser.Parser.Parameters | src/parser.rs:111-126 | the parameter list up to `)`: exactly the `collected` identifiers, at most 256, and a `TooManyArguments` error only when 256 of them have been collected |
| Parser.Parser.Statement | src/parser.rs:160-180 | one statement production, chosen by the first token |
| Parser.Parser.Declaration | src/parser.rs:90-98 | a function, a variable or a statement |
| Parser.Parser.DeclarationWithErrorHandling | src/parser.rs:79-87 | always consumes at least one token; a failure becomes `ParseError` after synchronizing |
| Parser.Parser.Parse | src/parser.rs:65-76 | reads declarations until `EOF`, with no more statements than tokens consumed, so parsing terminates |
| Parser.EmptyConditionRejected | src/parser.rs:192-200 | as written, the condition clause of `for (;;)` is rejected |
| Parser.EmptyIncrementRejected | src/parser.rs:201-206 | as written, an empty increment followed by one `)` is rejected |
| Parser.EmptyConditionAccepted | src/parser.rs:192-200 | the corrected clause accepts the empty condition of `for (;;)` |
| ParseTree.DesugarFor | src/parser.rs:235-239 | a missing initializer drops the outer block; otherwise `{init; while ...}`, and the result is well formed when its parts are |
| ParseTree.ForLoop | src/parser.rs:217-233 | a missing condition is `true`; a missing increment leaves the body bare, otherwise `{body; inc;}` |
| ParseTree.BinaryNested | src/parser.rs:379-449 | a level-n left operand and a strictly tighter right operand build a level-n binary node (left associativity) |
| ParseTree.LogicalNested | src/parser.rs:345-376 | the same for `or` and `and` |
| ParseTree.UnaryNested | src/parser.rs:452-463 | a prefix operator over a unary operand stays at the unary level |
| ParseTree.AssignNested | src/parser.rs:324-342 | an assignment to a name may take an assignment as its value (right associativity) |
| ParseTree.GroupingNested | src/parser.rs:543-550 | parentheses lift any expression to the tightest level |
| ParseTree.RootOk | src/parser.rs:319-321 | the root of a parsed expression keeps the grammar's rule |
| ParseTree.LeafNested | src/parser.rs:505-542 | literals and names are primaries |
| ParseTree.CallNested | src/parser.rs:466-501 | a call with at most 256 well-nested arguments is at the call level |
| ParseTree.IfParsed | src/parser.rs:244-259 | an if statement of parsed parts is parsed |
| Resolver.Mark | src/sema/resolver.rs:86-106 | keeps the number of scopes |
| Resolver.MarkEffect | src/sema/resolver.rs:86-106 | `declare`/`define` set the name's flag in the innermost scope only, and do nothing at global level |
| Resolver.MarkIdempotent | src/sema/resolver.rs:89-91 | marking a name twice is marking it once with the later flag, so redeclaring is no error |
| Resolver.LocalToExact | src/sema/resolver.rs:59-65 | a resolution at a depth is reported exactly when that scope holds the name, innermost first and each depth once |
| Resolver.LocalExact | src/sema/resolver.rs:59-65 | the same over the whole stack, and nothing when no scope holds the name |
| Resolver.LocalSound | src/sema/resolver.rs:59-65 | every reported depth exists and its scope holds the name |
| Resolver.LocalStartsInnermost | src/sema/resolver.rs:60-63 | a name in the innermost scope is resolved at depth 0 first |
| Resolver.ShadowedNameResolvedTwice | src/sema/resolver.rs:59-65 | a name held by two scopes is resolved at both depths |
| Resolver.CallStep | src/sema/resolver.rs:161-167 | a call resolves its callee, then each argument in order |
| Resolver.ResolutionsSound | src/sema/resolver.rs:109-168 | every resolution an expression makes names an existing depth whose scope holds the name |
| Resolver.ResolutionsAllSound | src/sema/resolver.rs:164-166 | the same for a list of arguments |
| Resolver.GlobalExprUntouched | src/sema/resolver.rs:145-159 | at global level an expression is neither resolved nor reported |
| Resolver.GlobalArgsUntouched | src/sema/resolver.rs:164-166 | the same for a list of arguments |
| Resolver.MarkKeepsOuter | src/sema/resolver.rs:86-106 | marking changes only the innermost scope |
| Resolver.ExprKeepsOuter | src/sema/resolver.rs:109-168 | resolving an expression leaves the scopes as they were and only appends to the logs |
| Resolver.ParamsKeepOuter | src/sema/resolver.rs:70-73 | the parameters land in the innermost scope |
| Resolver.PushPop | src/sema/resolver.rs:78-84 | a scope pushed, changed only innermost, then popped leaves the stack exactly as it was |
| Resolver.StmtKeepsOuter | src/sema/resolver.rs:170-223 | a statement keeps the depth and every scope but the innermost |
| Resolver.StmtsKeepOuter | src/sema/resolver.rs:42-47 | the same for a list of statements |
| Resolver.FunctionKeepsOuter | src/sema/resolver.rs:67-76 | a function's own scope is gone once its body is resolved |
| Resolver.BlockRestoresScopes | src/sema/resolver.rs:212-217 | a block restores the scope stack exactly |
| Resolver.FunctionDeclDefinesName | src/sema/resolver.rs:205-210 | the function's name is defined in the current scope before the body is resolved, and the parameters' scope does not outlive it |
| Resolver.VarDeclStep | src/sema/resolver.rs:198-203 | `var x = e`: `x` is unready while `e` is resolved, then ready |
| Resolver.SelfReferenceReported | src/sema/resolver.rs:145-159 | `var x = x;` in a local scope is reported once and yet resolved, and leaves `x` defined |
| Resolver.RedeclarationHarmless | src/sema/resolver.rs:198-203 | two declarations of the same name resolve like one, with no report |
| Resolver.Resolver.constructor | src/sema/resolver.rs:30-35 | resolution starts with no scope and empty logs |
| Resolver.Resolver.BeginScope | src/sema/resolver.rs:78-80 | pushes an empty scope |
| Resolver.Resolver.EndScope | src/sema/resolver.rs:82-84 | pops a scope, or does nothing on an empty stack |
| Resolver.Resolver.Declare | src/sema/resolver.rs:86-95 | marks the name unready in the innermost scope |
| Resolver.Resolver.Define | src/sema/resolver.rs:97-106 | marks the name ready in the innermost scope |
| Resolver.Resolver.ResolveLocal | src/sema/resolver.rs:59-65 | appends one resolution per scope holding the name |
| Resolver.Resolver.ResolveExpr | src/sema/resolver.rs:54-57 | the expression visitors, matching the expression specification |
| Resolver.Resolver.VisitVariable | src/sema/resolver.rs:145-159 | reports a read of an unready innermost name, then resolves it all the same |
| Resolver.Resolver.VisitCall | src/sema/resolver.rs:161-167 | the callee, then each argument |
| Resolver.Resolver.ResolveStmt | src/sema/resolver.rs:49-52 | the statement visitors, matching the statement specification |
| Resolver.Resolver.ResolveStmts | src/sema/resolver.rs:42-47 | the statements in order |
| Resolver.Resolver.ResolveFunction | src/sema/resolver.rs:67-76 | a new scope holding the parameters encloses the body |
| AstPrinter.Show | src/ast_printer.rs:28-59 | every node but a literal prints in parentheses, led by its operator lexeme or `group` |
| AstPrinter.Print | src/ast_printer.rs:13-15 | the printed form of the tree |
| AstPrinter.Parenthesize | src/ast_printer.rs:17-25 | `(` and the name, then a space and each printed child in order, then `)` |
| AstPrinter.Parenthesized | src/ast_printer.rs:17-25 | starts with `(` and the name, ends with `)`, and has one space per part |
| AstPrinter.ShowAll | src/ast_printer.rs:17-25 | the printed form of each child, in order |
| AstPrinter.ShowLiteral | src/ast_printer.rs:46-59 | a string in double quotes with no escaping; `nil`; `true`/`false` |
| AstPrinter.BinaryForm | src/ast_printer.rs:31-36 | a binary node prints as `(op left right)` with the operator lexeme |
| AstPrinter.UnaryForm | src/ast_printer.rs:38-40 | a unary node prints as `(op right)` |
| AstPrinter.GroupingForm | src/ast_printer.rs:42-44 | a grouping prints as `(group inner)` |
| OldInterpreter.BinaryOp | src/interpreter.rs:38-83 | an operator without an arm is `unimplemented!`; a handled operator fails only in `todo!`; comparisons and equality give booleans |
| OldInterpreter.UnaryOp | src/interpreter.rs:86-96 | succeeds exactly for `!`, or `-` on a number; `-` otherwise panics in `todo!`, other operators in `unreachable!` |
| OldInterpreter.Evaluate | src/interpreter.rs:17-104 | a tree whose operators all have arms can only panic in `todo!` |
| OldInterpreter.PlusCases | src/interpreter.rs:39-43 | `+` adds two numbers, concatenates two strings left then right, and panics on every other pair |
| OldInterpreter.NumericCases | src/interpreter.rs:44-71 | `- * / > >= < <=` succeed exactly on two numbers |
| OldInterpreter.EqualityCases | src/interpreter.rs:77-81 | `==` never panics and holds only for equal numbers or equal strings |
| OldInterpreter.NilNotEqualNil | src/interpreter.rs:77-81 | `nil == nil` and `true == true` are false |
| OldInterpreter.NotEqualNegatesEqual | src/interpreter.rs:72-81 | `!=` is the negation of `==` for every pair |
| OldInterpreter.EqualitySymmetric | src/interpreter.rs:77-81 | `==` is symmetric |
| OldInterpreter.UnaryCases | src/interpreter.rs:86-96 | `!` is negated truthiness; `-` negates numbers only |
| OldInterpreter.OperandsFirst | src/interpreter.rs:34-36 | both operands are evaluated left first, and a panic in either is the panic of the whole |
| OldInterpreter.GroupingTransparent | src/interpreter.rs:98-104 | a grouping is its inner value and a literal its own value |
| OldInterpreter.LogicalNeverPanics | src/interpreter.rs:72-96 | trees of literals, groupings, `!` and `==` never panic |
| Literal.IsTruthy | src/literal.rs:24-32 | falsy for `nil` and `false`; the cases are stated by `Literal.TruthyCases` |
| Literal.TruthyCases | src/literal.rs:24-32 | falsy exactly for `nil` and `false`; every string and number is truthy |
| Literal.Display | src/literal.rs:9-22 | strings verbatim, `nil`, `true`/`false` |
| Num.Div | src/interpreter.rs:52-55 | the exact quotient whenever the divisor is not zero |
| Environment.Lookup | src/environment.rs:16-21 | the binding of the token's lexeme, if any |
| Environment.Environment.constructor | src/environment.rs:6-9 | the default environment is empty, so every lookup fails |
| Environment.Environment.Define | src/environment.rs:12-14 | the name then looks up to the value and every other name as before |
| Environment.Environment.Get | src/environment.rs:16-21 | the lookup of the token's lexeme |
| Environment.DefineThenLookup | src/environment.rs:12-21 | a definition is what a later lookup of the same name sees, and only that name |
| Environment.DefineOverwrites | src/environment.rs:12-14 | defining a name twice keeps the second value |
| OldCallable.ReturnOf | src/callable.rs:45-52 | the call succeeds exactly when the body completed or returned |
| OldCallable.ReturnStopsAtCall | src/callable.rs:45-52 | a returned value becomes the result, completion gives `nil`, and other errors pass on unchanged |
| OldCallable.FullCallBindsAll | src/callable.rs:33-44 | a call with as many arguments as the arity binds each distinct parameter to its own argument |
| OldCallable.Call | src/callable.rs:38-53 | the parameters are bound pairwise as `zip` pairs them, in a fresh frame nested in the globals, not in a closure |
| Frames.Frame.Nested | interpreter/src/types/callable.rs:78 | a fresh frame has no bindings of its own and links to the given frame |
| Frames.Frame.Define | interpreter/src/types/callable.rs:80 | binds in this frame only, replacing an earlier binding |
| Frames.Paired | interpreter/src/types/callable.rs:79 | `zip` forms as many pairs as the shorter list |
| Frames.DefineAllLookup | interpreter/src/types/callable.rs:79-81 | after the definitions a name is bound exactly when it was before or is a parameter, and the last definition wins |
| Frames.DistinctNamesBindInOrder | interpreter/src/types/callable.rs:79-81 | with distinct names each parameter is bound to its own argument |
| Frames.FullPairingBindsAll | interpreter/src/types/callable.rs:79-81 | one argument per parameter binds them all |
| TypesRuntime.IsTruthy | src/types/literal.rs:45-53 | falsy for `nil` and `false`; the cases are stated by `TypesRuntime.TruthyCases` |
| TypesRuntime.TruthyCases | src/types/literal.rs:45-53 | falsy exactly for `nil` and `false`, so functions, classes and instances are truthy, and so is not the default `Nil` |
| TypesRuntime.Display | src/types/literal.rs:24-43 | the text of each value kind, functions as `<fun name>`, natives as `<native fun>`, classes as `<class N>`, instances as `<N instance>` |
| TypesRuntime.DisplayBracketed | src/types/literal.rs:34-39 | callables and instances print in angle brackets |
| TypesRuntime.DisplayAmbiguous | src/types/literal.rs:35 | a string can print exactly like a function |
| TypesRuntime.FullCallBindsAll | src/types/callable.rs:70-82 | a call with as many arguments as the arity binds each distinct parameter to its own argument |
| TypesRuntime.ReturnOf | src/types/callable.rs:83-90 | the call succeeds exactly when the body completed or returned |
| TypesRuntime.ReturnStopsAtCall | src/types/callable.rs:83-90 | a returned value becomes the result, completion gives `nil`, other errors pass on; there is no initializer case |
| TypesRuntime.Bind | src/types/callable.rs:41-51 | a copy whose closure is a fresh child of the old one binding only `this` |
| TypesRuntime.CallFunction | src/types/callable.rs:75-91 | pairwise parameter binding in a child of the closure; a poisoned lock gives `EnvironmentError` |
| TypesRuntime.CallClass | src/types/class.rs:44-47 | ignores the arguments and yields a new instance of the class with no fields |
| TypesRuntime.FieldOf | src/types/class.rs:58-65 | a stored field, or `UndefinedProperty` naming the token |
| TypesRuntime.SetThenGet | src/types/class.rs:58-70 | a set field is what a later get finds; other names are unaffected |
| TypesRuntime.LochxInstance.constructor | src/types/class.rs:51-56 | an instance of the class with no fields |
| TypesRuntime.LochxInstance.Get | src/types/class.rs:58-65 | the stored field or `UndefinedProperty` |
| TypesRuntime.LochxInstance.Set | src/types/class.rs:67-70 | inserts or overwrites exactly one field |
| InterpRuntime.Ancestors | interpreter/src/types/class.rs:16-20 | the class followed by its superclasses, nearest first |
| InterpRuntime.FindMethodByName | interpreter/src/types/class.rs:57-62 | a class's own method is found first, and whatever is found is the definition of some class of the chain |
| InterpRuntime.FindMethodNearest | interpreter/src/types/class.rs:57-62 | a method is found exactly when some class of the chain defines it, and it is the nearest one's, so own methods shadow inherited ones |
| InterpRuntime.FindMethod | interpreter/src/types/class.rs:64-68 | fails with `UndefinedProperty` exactly when the lookup by name finds nothing |
| InterpRuntime.IsInit | interpreter/src/types/callable.rs:51-53 | a function is named `init` |
| InterpRuntime.ClassArity | interpreter/src/types/class.rs:78-82 | a non-zero arity is the parameter count of an `init` defined in the chain |
| InterpRuntime.ClassArityFromInit | interpreter/src/types/class.rs:78-82 | a class's arity is that of the nearest `init`, and 0 when the chain has none |
| InterpRuntime.FullCallBindsAll | interpreter/src/types/callable.rs:72-81 | a call with as many arguments as the arity binds each distinct parameter to its own argument |
| InterpRuntime.ThisOf | interpreter/src/types/callable.rs:87 | the closure's own `this` binding, or an error when it has none |
| InterpRuntime.CallResult | interpreter/src/types/callable.rs:83-97 | an initializer yields the receiver unless its body raised an error; any other function yields a value or passes on an error that is not a return |
| InterpRuntime.CallResultCases | interpreter/src/types/callable.rs:83-97 | an initializer yields `this` after a return or a completion, any other function its returned value or `nil`, and other errors pass on |
| InterpRuntime.Bind | interpreter/src/types/callable.rs:41-49 | a copy whose closure is a fresh child of the old one binding only `this` |
| InterpRuntime.CallFunction | interpreter/src/types/callable.rs:76-98 | pairwise parameter binding in a child of the closure, then the call result above |
| InterpRuntime.CallClass | interpreter/src/types/class.rs:84-92 | a new empty instance is the result whatever `init` returns; an error raised by `init` is the call's error |
| InterpRuntime.LochxInstance.constructor | interpreter/src/types/class.rs:96-101 | an instance of the class with no fields |
| InterpRuntime.LochxInstance.Wrapped | interpreter/src/types/class.rs:103-105 | a new shared instance holding a copy of the fields |
| InterpRuntime.LochxInstance.GetAsWritten | interpreter/src/types/class.rs:107-117 | a field if present, else the method bound in a fresh frame whose only name `this` is a fresh instance with this instance's class and fields (the copy `wrapped` makes), else `UndefinedProperty` |
| InterpRuntime.LochxInstance.Get | interpreter/src/types/class.rs:107-117 | corrected: fields shadow methods, and a method is bound to this very instance |
| InterpRuntime.LochxInstance.Set | interpreter/src/types/class.rs:119-122 | inserts or overwrites exactly one field |
| InterpRuntime.MethodWriteLostAsWritten | interpreter/src/types/class.rs:113 | as written, a method's write through `this` reaches the copy and not the instance it was fetched from |
| InterpRuntime.MethodWriteSeen | interpreter/src/types/class.rs:113 | corrected, the write is seen by the instance |
| SourceBuffer.AppendText | interpreter/src/runtime.rs:9-18 | the old text is a prefix, a newline follows it when it was not empty, the appended text starts at the chunk's character index, and the UTF-8 length of everything before it is the returned byte offset |
| SourceBuffer.AppendOffset | interpreter/src/runtime.rs:9-18 | 0 exactly for an empty buffer; a byte offset between one and four times the character index, and equal to it on ASCII text |
| SourceBuffer.EarlierChunkSurvives | interpreter/src/runtime.rs:9-18 | a later append never moves or changes an earlier chunk, nor the bytes before it |
| SourceBuffer.SourceBuffer.constructor | interpreter/src/runtime.rs:3 | the buffer starts empty |
| SourceBuffer.SourceBuffer.SetSource | interpreter/src/runtime.rs:5-7 | replaces the whole text |
| SourceBuffer.SourceBuffer.AppendSource | interpreter/src/runtime.rs:9-18 | appends as specified and returns the byte offset where the new text begins |
| OldExpr.Size | src/expr.rs:22-28 | the node count of a tree, at least one; the measure through which the printer walks a node's children |
| OldExpr.SizeAll | src/expr.rs:22-28 | the node count of a list of trees, at least one per tree |
| OldExpr.SizeAllBound | src/expr.rs:22-28 | any one tree of a list weighs no more than the whole list |
| Utf8.Utf8Size | interpreter/src/runtime.rs:16 | the byte length `len()` measures: at least one and at most four bytes per character |
| Utf8.Utf8SizeAppend | interpreter/src/runtime.rs:15-16 | the byte length of a concatenation is the sum of the byte lengths |
| Utf8.Utf8SizeAscii | interpreter/src/runtime.rs:16 | byte and character lengths agree exactly on ASCII text |
| SourceBuffer.SourceBuffer.Source | interpreter/src/runtime.rs:21-23 | the current text |
| VmToken.KeywordTable | vm/src/scanner.rs:35-52 | the sixteen-word table and the keyword kinds are inverse, so no two words share a kind |
| VmToken.FixedLexeme | vm/src/scanner.rs:64-106 | each operator and punctuation kind has a one- or two-character lexeme |
| Utf8.Utf8Len | vm/src/scanner.rs:227-236 | one to four bytes, one exactly for ASCII |
| VmScanner.Scanner.IsAtEnd | vm/src/scanner.rs:203-205 | the byte cursor has reached the end of the text |
| VmScanner.Scanner.PeekOffset | vm/src/scanner.rs:216-225 | the character that many bytes ahead, NUL past the end |
| VmScanner.Scanner.Peek | vm/src/scanner.rs:207-209 | the current character, NUL at the end |
| VmScanner.Scanner.PeekNext | vm/src/scanner.rs:211-213 | the character after it, NUL past the end |
| VmScanner.Scanner.constructor | vm/src/scanner.rs:28-54 | starts at line 1 at the start of the text; the scan offset is ignored |
| VmScanner.Scanner.CurrentPosition | vm/src/scanner.rs:196-201 | the line and the span `start..current`, within the text |
| VmScanner.Scanner.Advance | vm/src/scanner.rs:227-236 | returns the current character and moves both cursors past it |
| VmScanner.Scanner.Matches | vm/src/scanner.rs:239-249 | consumes the next character exactly when it is the expected one |
| VmScanner.Scanner.SkipComment | vm/src/scanner.rs:127-130 | skips to the line end or the end of the text, passing no line end |
| VmScanner.Scanner.SkipWhitespace | vm/src/scanner.rs:115-138 | skips blanks, newlines and `//` comments, counting the newlines, and stops where none of these begins |
| VmScanner.Scanner.ScanString | vm/src/scanner.rs:140-154 | a string runs to a closing quote with none inside, or else is the unterminated-string error at the end of the text; its newlines are counted |
| VmScanner.Scanner.SkipStringBody | vm/src/scanner.rs:141-146 | stops at the first quote or the end, counting newlines |
| VmScanner.Scanner.ScanNumber | vm/src/scanner.rs:156-167 | the longest run of digits, with a fraction only when a digit follows the dot |
| VmScanner.KeywordOrIdentifier | vm/src/scanner.rs:174-179 | a lexeme in the keyword table gets the keyword kind that prints as it, and every other lexeme is an `Identifier` |
| VmScanner.Scanner.ScanIdentifier | vm/src/scanner.rs:169-180 | the longest identifier run, a keyword exactly when the whole lexeme is in the table |
| VmScanner.Scanner.ScanToken | vm/src/scanner.rs:56-113 | the span of every token lies in the text; `Eof` exactly at the end, with an empty span and again on later calls; every other token consumes at least one character and is what its first character decides |
| VmScanner.Scanner.ScanLexeme | vm/src/scanner.rs:62-112 | the token at a non-blank position, as its first character decides |
| VmScanner.Scanner.ScanOperatorOrWord | vm/src/scanner.rs:63-111 | single characters, `=`-taking operators, numbers, identifiers and the unexpected-character error, none spanning a line break |
| VmScanner.TokenLacksNewline | vm/src/scanner.rs:63-111 | a token that starts with neither a quote nor a line end lies on one line |
| VmOpCode.Encode | vm/src/opcode.rs:33-58 | the bytes of an instruction number exactly its size |
| VmOpCode.NatToString | vm/src/opcode.rs:23 | the decimal digits of a number: non-empty, all digits, reading back as the number, with no leading zero |
| VmOpCode.Size | vm/src/opcode.rs:60-70 | 2 for `Constant`, 1 otherwise |
| VmOpCode.TryFrom | vm/src/opcode.rs:73-84 | a leading byte above 6 is `UnknownOpcode`; a decoded instruction fits in the bytes |
| VmOpCode.ByteVec.WriteTo | vm/src/opcode.rs:33-58 | appends exactly the encoding and keeps the earlier bytes |
| VmOpCode.RoundTrip | vm/src/opcode.rs:33-84 | decoding where an encoding was written gives the instruction back, whatever surrounds it |
| VmOpCode.EncodeInjective | vm/src/opcode.rs:35-56 | distinct instructions have distinct encodings |
| VmOpCode.DecodeSequence | vm/src/opcode.rs:33-84 | instructions written one after another are read back one by one |
| VmOpCode.Mnemonic | vm/src/opcode.rs:19-29 | the name each instruction disassembles to; `MnemonicsDistinct` states they tell the kinds apart |
| VmOpCode.Disassemble | vm/src/opcode.rs:17-31 | the size, the mnemonic, and for `Constant` its index and constant; `None`, the index panic, exactly when a `Constant` index is past the table |
| VmOpCode.MnemonicsDistinct | vm/src/opcode.rs:17-31 | the mnemonics tell the instructions apart |
| VmMachine.Pops | vm/src/vm.rs:53-83 | how many values each instruction pops (`unwrap` on an empty stack is the panic `Execute` states) |
| VmMachine.Pushes | vm/src/vm.rs:53-83 | how many values each instruction pushes |
| VmMachine.RunFrom | vm/src/vm.rs:44-86 | the outcome of the loop from a pc and a stack; a decode error names an unknown byte of the code at or after the pc |
| VmMachine.Execute | vm/src/vm.rs:53-84 | `Return` yields the top; `Constant` pushes `constants[index]`; `Negate` replaces the top by its negation; `Add`, `Subtract`, `Multiply`, `Divide` replace the top two by `Arith(op, second, top)`; the entries below are unchanged; popping an empty stack panics |
| VmMachine.Arith | vm/src/vm.rs:63-82 | `a + b`, `a - b`, `a * b` and `a / b` with `a` the second entry and `b` the top; a quotient by a non-zero divisor multiplies back to `a` |
| VmMachine.StepAt | vm/src/vm.rs:51-52 | decodes at the pc and moves it past the instruction before executing; a decode error ends the run |
| VmMachine.VM.constructor | vm/src/vm.rs:23-29 | an empty stack at the given pc |
| VmMachine.VM.Run | vm/src/vm.rs:44-86 | the outcome the step rules give from the start state |
| VmMachine.VM.StepOnce | vm/src/vm.rs:51-84 | one pass of the loop, matching the step rules |
| VmMachine.VM.ExecuteInsn | vm/src/vm.rs:53-84 | the instruction arm of the loop, matching `Execute` |
| VmMachine.RunReturnsTop | vm/src/vm.rs:54-57 | a `Return` reached with a value on the stack returns that value |
| VmMachine.ReturnOnEmptyPanics | vm/src/vm.rs:55 | `Return` on an empty stack panics |
| VmMachine.RunPastEndPanics | vm/src/vm.rs:51 | running off the end of the code is an index panic |
| VmMachine.ArithmeticFirstSteps | vm/src/vm.rs:58-67 | two constants are pushed, then `Add` leaves their sum |
| VmMachine.ArithmeticLastSteps | vm/src/vm.rs:58-82 | a constant, `Divide` and `Negate` follow |
| VmMachine.ArithmeticProgram | vm/src/vm.rs:44-86 | the program for `-((a + b) / c)` returns that value |
| VmChunk.TryFrom | vm/src/chunk.rs:16-21 | byte 0 is `Return`, and any other byte is unimplemented |
| VmChunk.Show | vm/src/chunk.rs:24-33 | `Return` displays as `RETURN` |
| VmChunk.NewChunk | vm/src/chunk.rs:41-43 | a new chunk holds the single byte 0, which decodes to `Return` |
| VmChunk.DisassembleInstruction | vm/src/chunk.rs:58-64 | adds exactly one row and returns the next offset |
| VmChunk.Disassemble | vm/src/chunk.rs:46-55 | one row per offset in order when every byte is 0; otherwise a panic at the first other byte |

## Left out

- I/O:
  - the command line, the REPL, file reading and terminal output;
  - diagnostic rendering, the parser's error report, and the report the resolver's visit of a `ParseError` statement sends through `crate::error` (src/types/stmt.rs:106-115), which the model treats as a no-op;
  - the VM's stack and trace printing, including the trace's own decode.
- `VM::interpret` stores a reference to a dropped local chunk, so it is not modelled; the compiler stub does not compile.
- Floating point. Numbers are exact reals, so IEEE rounding, infinities and NaN are not modelled.
  - `Num.Div`: division by zero gives 0, where the source gives an infinity or NaN.
- Number formatting is not modelled. Each display takes the number's text as a parameter (`showNum`, `show`).
- The `clock` natives read the system clock. Native bodies are host functions, passed in as a parameter keyed by `HostId`.
- `OldCallable.CallNative`, `TypesRuntime.CallNative`, `InterpRuntime.CallNative`: no contract beyond forwarding the arguments to the host function, which is all the source does.
- `OldCallable.NativeArity`, `TypesRuntime.Arity`, `InterpRuntime.Arity`, `OldCallable.Arity`: plain functions whose properties are the `FullCallBindsAll` and `ClassArityFromInit` lemmas.
- `execute_block` and the interpreter's side table are not part of this model. How a body run ended is given to each call as an outcome parameter.
- The nested environment chain beyond the one frame a call builds is not part of this model.
  - `get_at_by_name` is modelled as the closure's own `this` binding; its failure is a stand-in `UndefinedVariable` error.
- Failures of `define` in the third generation are not modelled, nor is the panic of `expect` in the second generation's `bind`:
  - `InterpRuntime.CallFunction`: the `define(...)?` that binds each parameter (interpreter/src/types/callable.rs:80) can fail in the source; here binding always succeeds;
  - the same holds for binding `this`.
- Parser.Parser.constructor, Parser.Parser.PrimaryToken: the parser requires `WellFormed` tokens, whose `LiteralAttached` says every `Number` and `String` token carries its literal. This rules out the `.expect` panics at src/parser.rs:525 and src/parser.rs:534. The scanner that feeds the parser (src/main.rs:116-117) is not part of this model.
- The resolver's class, get, set, `this` and `super` visitors are not implemented in that file.
- The first-generation printer and evaluator implement no variable visitor, so their models take trees without variables (`AstPrinter.NoVariables`).
- `Return` statements always carry a value, as the parser builds them.
- A function's Display shows the lexeme of its name token; token `lexeme` extraction from the shared source is not modelled.
- VmScanner.Scanner.constructor: requires ASCII text (`IsAscii`), so multibyte UTF-8 in the bytecode scanner is not modelled and byte and character cursors agree. The source buffer does count its offsets in UTF-8 bytes.
- `OldScanner.Scanner.ScanTokens`, `OldScanner.Scanner.ScanToken`, `OldScanner.TokenOf`: characters outside the ten the stub knows reach `todo!()`. They are excluded by a `Recognised` precondition rather than modelled as a panic.
- `VmOpCode.TryFrom`: an offset past the bytes is an index panic in the source. It is a precondition here; `VmMachine.StepAt` handles it as `Panicked`.
- Parser productions, `Parser.Parser.Expression` down to `Parser.Parser.Primary`: the contracts state grammar level, progress and error shape, not which tree comes from which tokens.
- Parser.Parser.ForStmtCorrected: not reached from `Parser.Parser.Statement`, which keeps the as-written `for`.
- `Rc`/`RwLock`/`Arc` sharing is modelled as heap objects. Single-threaded execution is assumed, and lock poisoning only where the source maps it to an error.

## Findings

| source | as written | input that shows it | evidently intended | confidence | as-written member | corrected member |
|---|---|---|---|---|---|---|
| src/parser.rs:192-206 | the condition and increment clauses test for their delimiter with `match_any`, which consumes it, and then `consume` the delimiter again | `for (;;) print 1;`: after the empty initializer the condition clause consumes the second `;` and then fails on `)` | an empty clause is followed by exactly one delimiter, as `check` then `consume` gives | high, not executed | Parser.Parser.ForClauses | Parser.Parser.ForClausesCorrected |
| interpreter/src/types/class.rs:113 | `get` binds a found method to `self.wrapped()`, a new shared instance holding a copy of the fields | a method whose body runs `this.f = 1`, fetched with `o.m`: the write goes to the copy, and `o.f` stays undefined | the method is bound to the shared instance the property was read from, so writes through `this` are seen | high, not executed | InterpRuntime.MethodWriteLostAsWritten | InterpRuntime.MethodWriteSeen |
