# A small API language compiled to a C web server

The modelled program translates a small language for HTTP APIs into one C
source file. A program holds `api` blocks. Each block declares global
variables (`var int n = 0;`, `var list int users;`), startup statements
(assignments and `users.add(e);` calls), and `route "/path" METHOD` blocks.
A route may declare JSON body parameters (`REQ_BODY`, or
`[int a, string b]`). Its body is made of assignments, `add` calls,
`return` statements built from string literals and variables joined by `+`,
and `if (...) { ... } else { ... }` blocks. The C output is a Winsock server
scaffold: globals, a `main` that runs the startup statements, and an accept
loop in which each route becomes a guarded `if` that parses JSON parameters,
runs the statements and sends a response.

The model has six parts:

- **Lexer** (`lexer.dfy`): `tokenize`.
  - The eight-alternative regular expression is written out as a
    first-match scanner (`MatchToken`). It includes the backtracking
    triple-quoted string alternative.
  - `Scan` covers the whole input, and `Tokens` drops blanks and newlines.
  - The `Tokenize` loop is proved equal to `Tokens`.
- **Grammar** (`grammar.dfy`): each `parse_*` method as a pure function
  `XAt(tokens, pos)`.
  - Each returns the node and the next cursor position, or the error the
    method raises.
  - Python failures that are not `SyntaxError` become named errors:
    `TermAtEnd` (a term read past the end of the input) and `BadNumber`.
- **Parser** (`parser.dfy`): the `Parser` class with its `tokens` and
  mutable `pos`.
  - Each method keeps the loops of the source.
  - Each method is proved to return what the matching grammar function
    returns and to leave `pos` where that function says.
- **Emitter** (`emit.dfy`): `expr_to_c`, `condition_to_c`,
  `return_parts_to_c`, `generate_json_parser`, `generate_statement_c` and
  `gen_c_code`, as functions over the syntax tree.
  - The long verbatim C scaffold strings are a `Scaffold` parameter.
- **Pipeline** (`compiler.dfy`): tokenize, parse, refuse a program without
  `api`, and generate, which is what `main` does on the file's text.
- **Properties** (`grammar_props.dfy` for expressions, conditions and
  parameters; `stmt_props.dfy` for statements, blocks, routes, api blocks
  and the program; `emit_props.dfy` for the emitter).

Three behaviours of the code are easy to miss, and the model keeps each
of them as written:

- **A lone `=` is a comparison.** `parse_condition` (main.py:264-275)
  accepts `>`, `<`, `=`, and `=` `=` folded into `==`. `condition_to_c`
  prints the operator verbatim, so a lone `=` becomes C assignment
  (`ConditionToCCompare`).
- **An unclosed `if` body is not an error.** The then- and else-loops
  (main.py:231-260) stop quietly at the end of the input, while the `api`
  and `route` loops raise "block not closed" (main.py:66, main.py:204).
  See `IfBodyUnclosed` and `IfBodyRead`.
- **The `strcmp` branch is unreachable.** The branch of `condition_to_c`
  for two string operands (main.py:359-360) needs `string` nodes, and the
  parser never builds one.

A `%` inside a `return` string literal is copied into the `sprintf` format
without being doubled. The format and the argument list then disagree, as
`PercentLiteralBreaksFormat` shows. The model keeps this behaviour as
written.

## Model

| member | source | states |
|---|---|---|
| Lexer.MatchToken | main.py:8-18 | the token matched at the head of the input is non-empty and has the shape of its kind: a digit run or identifier that cannot be extended, a quoted string, a triple-quoted string of at least six characters, one symbol character, one newline, a maximal blank run, or one other character |
| Lexer.TripleBody | main.py:9 | a triple-quoted match ends with three quotes placed after the opening three |
| Lexer.StringBody | main.py:10 | a quoted match ends with a quote after the opening one |
| Lexer.RunEnd | main.py:11-14 | the end of a `\d+`, identifier or blank run: every character before it belongs to the class and the character at it does not |
| Lexer.Tokenize | main.py:7-24 | the `finditer` loop yields exactly `Tokens(code)` |
| Lexer.ScanCovers | main.py:19-21 | the matched lexemes, concatenated, give back the whole input: the scanner never skips or invents characters |
| Lexer.TokensKinds | main.py:19-24 | every yielded token has a non-empty lexeme and one of the kinds TRIPLE_STRING, STRING, NUMBER, ID, SYMBOL, UNKNOWN; NEWLINE and SKIP tokens never appear |
| Lexer.VisibleAppend | main.py:22-23 | dropping blanks and newlines works piece by piece over concatenated token runs |
| Decimal.NatToString | main.py:337 | `str` of a number is a non-empty digit string with no leading zero |
| Decimal.DigitsValueOfNatToString | main.py:123 | reading back the printed digits (`int`) gives the number |
| Grammar.ExpectAt | main.py:39-44 | succeeds iff a token is present with the expected kind and, when given, the expected lexeme; it then returns the lexeme and moves one token on, otherwise it fails with the expected kind, value and the token found |
| Grammar.TermAt | main.py:119-140 | a term, on success, consumes at least one token and stays within the input; what it reads is stated by `GrammarProps.TermAtLaid` |
| Grammar.FactorAt | main.py:108-117 | a product, on success, consumes at least one token and stays within the input |
| Grammar.ExprAt | main.py:97-106 | an expression, on success, consumes at least one token and stays within the input; grouping and read-back are stated by `GrammarProps.Precedence` and `GrammarProps.ExprAtLaid` |
| Grammar.ConditionAt | main.py:264-275 | a condition, on success, consumes at least one token; its node is stated by `GrammarProps.ConditionStep` and `GrammarProps.ConditionAtBare` |
| Grammar.AssignOrCallAt | main.py:277-300 | a statement, on success, consumes at least its name; its node is stated by `StmtProps.AssignOrCallKinds` |
| Grammar.StringValue | main.py:217-220 | a triple-quoted token loses exactly three characters at each end; a quoted token loses its quotes, leaving no `"` at either end |
| Grammar.ReturnAt | main.py:302-333 | a return statement, on success, consumes at least the `return` keyword and yields a `Return` node; its parts are stated by `StmtProps.ReturnRead` |
| Grammar.ReturnPartsAt | main.py:305-332 | the parts loop never moves the cursor back or past the end |
| Grammar.ValuePartAt | main.py:319-328 | a value part, on success, consumes at least its name |
| Grammar.IfBodyAt | main.py:231-243 | the then- or else-loop never moves the cursor back or past the end |
| Grammar.IfBranchesAt | main.py:231-262 | the branches, on success, yield an `If` node |
| Grammar.IfAt | main.py:223-262 | an if statement, on success, consumes at least its header and yields an `If` node; its condition and bodies are stated by `StmtProps.IfWithoutElse` and `StmtProps.IfWithElse` |
| Grammar.RouteParamsAt | main.py:142-184 | the parameters never move the cursor back or past the end |
| Grammar.ParamListAt | main.py:151-163 | the bracketed loop never moves the cursor back or past the end |
| Grammar.RouteBodyAt | main.py:201-215 | the route body loop, on success, consumes at least the closing brace |
| Grammar.RouteAt | main.py:186-221 | a route, on success, consumes at least the `route` keyword; its fields are stated by `StmtProps.RouteRead` |
| Grammar.VarAt | main.py:80-95 | a declaration, on success, consumes at least the `var` keyword; its node is stated by `StmtProps.VarAtKinds` |
| Grammar.ApiAt | main.py:56-78 | an api block, on success, consumes at least the `api` keyword; its contents are stated by `StmtProps.ApiRead` |
| Grammar.ApiBodyAt | main.py:63-77 | the api body loop, on success, consumes at least the closing brace and keeps the api's name; the sorting of members is stated by `StmtProps.ApiBodyRead` |
| Parsing.Parser.constructor | main.py:27-29 | the parser starts at position 0 over the given tokens |
| Parsing.Parser.Peek | main.py:31-34 | returns the token at the cursor iff there is one |
| Parsing.Parser.Advance | main.py:36-37 | moves the cursor one token on |
| Parsing.Parser.Expect | main.py:39-44 | returns what `ExpectAt` returns; on success the lexeme of the current token and the cursor one further, on failure the cursor unchanged |
| Parsing.Parser.ParseTerm | main.py:119-140 | the result and new cursor are those of `TermAt`: every printed expression is read back as itself |
| Parsing.Parser.ParseFactor | main.py:108-117 | the `*`/`/` loop returns the result and cursor of `FactorAt` |
| Parsing.Parser.ParseExpr | main.py:97-106 | the `+`/`-` loop returns the result and cursor of `ExprAt`, which groups `*` and `/` tighter and operators of one level to the left |
| Parsing.Parser.ParseCondition | main.py:264-275 | the result and cursor of `ConditionAt`: a comparison node, or the bare term when no comparison symbol follows |
| Parsing.Parser.ParseAssignOrCall | main.py:277-300 | the result and cursor of `AssignOrCallAt`: `n = e ;` an assignment, `n . f ( e ) ;` a call, `n ;` a no-op, and the unexpected-end and unexpected-expression errors |
| Parsing.Parser.ParseReturn | main.py:302-333 | the result and cursor of `ReturnAt`: the return of the parts laid out after `return` |
| Parsing.Parser.ParseReturnParts | main.py:305-332 | the parts loop returns the result and cursor of `ReturnPartsAt`: the parts in order, `+` skipped, ending at `;` or the end of input |
| Parsing.Parser.ParseValuePart | main.py:319-328 | the result and cursor of `ValuePartAt`: an array element part when `[` follows the name, a variable part otherwise |
| Parsing.Parser.ParseIfBlock | main.py:231-243 | the then-block loop returns the result and cursor of `IfBodyAt`: the statements before `}` or the end of input, in order |
| Parsing.Parser.ParseIf | main.py:223-262 | the result and cursor of `IfAt`: the condition, the then-body and the else-body when `else` follows |
| Parsing.Parser.ParseIfBranches | main.py:231-262 | the result and cursor of `IfBranchesAt`: the then-block, and the else-block read after `else {` |
| Parsing.Parser.ParseParamList | main.py:151-163 | the bracketed parameter loop returns the result and cursor of `ParamListAt`: the parameters in order, `]` consumed |
| Parsing.Parser.ParseRouteParams | main.py:142-184 | the result and cursor of `RouteParamsAt`, including the `REQ_BODY` default |
| Parsing.Parser.ParseRoute | main.py:186-221 | the result and cursor of `RouteAt`: the path text, verb, parameters and body, or the route path error |
| Parsing.Parser.ParseRouteBody | main.py:201-215 | the route body loop returns the result and cursor of `RouteBodyAt`: the statements before `}`, in order, or an error when `}` never comes |
| Parsing.Parser.ParseVar | main.py:80-95 | the result and cursor of `VarAt`: a list for type `list`, a scalar with an optional initializer otherwise |
| Parsing.Parser.ParseApi | main.py:56-78 | the result and cursor of `ApiAt`: the api's name with its globals, startup statements and routes |
| Parsing.Parser.ParseApiBody | main.py:63-77 | the api body loop returns the result and cursor of `ApiBodyAt`: members sorted into globals, startup statements and routes, in order |
| Parsing.Parser.Parse | main.py:46-54 | the top-level loop returns `ProgramAt`: every api block in source order, other tokens skipped, or the first error |
| StmtProps.ListVarAt | main.py:83-87 | `var list <sub> <name> ;` declares a list of that subtype |
| StmtProps.ScalarVarAt | main.py:88-95 | `var <type> <name> ;` declares a scalar with no initializer |
| StmtProps.ScalarVarInitAt | main.py:88-95 | `var <type> <name> = <expr> ;` declares a scalar initialised with that expression |
| StmtProps.VarAtKinds | main.py:80-95 | a declaration starts with `var`; it is a list exactly when the type is `list`, and a scalar has an initializer exactly when `=` follows its name |
| StmtProps.AssignAt | main.py:290-294 | `<name> = <expr> ;` is an assignment of that expression |
| StmtProps.CallAt | main.py:282-289 | `<name> . <func> ( <expr> ) ;` is a call with that target, method and argument |
| StmtProps.NoOpAt | main.py:295-298 | `<name> ;` is read as a no-op |
| StmtProps.AssignOrCallKinds | main.py:277-300 | only assignments, calls and no-ops come out, decided by the symbol after the name, with the name kept; input ending after the name is the unexpected-end error |
| StmtProps.ValuePartKinds | main.py:319-328 | a name followed by `[` is an array element part, any other name a variable part, both named by the token |
| StmtProps.ArrayPartAt | main.py:322-326 | `<name> [ <expr> ]` is the array element part with that index |
| StmtProps.StringValueOfQuoted | main.py:314-317 | `"v"` gives back `v` when `v` has no quote at its ends, and `"""v"""` gives back `v` |
| StmtProps.PartAt | main.py:312-328 | a string token is the literal part with its quote-stripped text |
| StmtProps.ReturnPartsRead | main.py:305-332 | the parts loop collects exactly the parts laid out with `+` between them, in order, and stops at `;` (consumed) or at the end of input |
| StmtProps.ReturnRead | main.py:302-333 | `return` followed by laid-out parts is the return statement of exactly those parts |
| StmtProps.IfWithoutElse | main.py:223-262 | `if ( c ) { S }` with no `else` after it is `If(c, S, [])` |
| StmtProps.IfWithElse | main.py:223-262 | `if ( c ) { S } else { T }` is `If(c, S, T)` |
| StmtProps.NextStart | main.py:201-215 | the next name or `}` in a block; every token skipped before it is neither |
| StmtProps.BlocksSkip | main.py:76-77 | the route, if and api loops step over stray tokens without effect |
| StmtProps.StmtAt | main.py:238-243 | a statement read inside an if body is never an if statement, since that loop only reads `return` and assignment or call statements |
| StmtProps.RouteBodyRead | main.py:201-215 | a route body is exactly the statements read one after another before its `}`, in order, and the `}` is consumed |
| StmtProps.IfBodyRead | main.py:231-243 | an if body is exactly the statements read before its `}` (consumed) or before the end of input, in order |
| StmtProps.RouteRead | main.py:186-221 | `route <path> <verb> <params> { <body> }` is the route with the path text, verb, parameters and body read in turn |
| StmtProps.RoutePathRequired | main.py:188-192 | a route whose path is not a string token fails with the route path error |
| StmtProps.MemberAt | main.py:70-75 | `var` starts a global, `route` a route, and any other name a startup statement |
| StmtProps.ApiBodyRead | main.py:63-77 | an api body sorts its members into globals, startup statements and routes, each in source order, and ends at its `}` |
| StmtProps.ApiRead | main.py:56-78 | `api <name> { <members> }` is the api of that name with its members sorted in source order |
| StmtProps.NextApi | main.py:48-53 | the next `api` keyword or the end of input; no token skipped before it is `api` |
| StmtProps.ProgramSkips | main.py:52-53 | tokens before the next `api` are skipped without effect |
| StmtProps.ProgramRead | main.py:46-54 | the program is exactly its api blocks read one after another, in source order, with every other token outside them skipped |
| GrammarProps.TermAtLaid | main.py:119-140 | an expression laid out token by token as `expr_to_c` prints it is read back as the same tree, consuming exactly its tokens |
| GrammarProps.ExprAtLaid | main.py:97-117 | the same read-back for a whole expression not followed by another operator |
| GrammarProps.Precedence | main.py:97-117 | `x o1 y o2 z` groups as `x o1 (y o2 z)` exactly when `o1` is `+`/`-` and `o2` is `*`/`/`; otherwise it groups to the left |
| GrammarProps.ConditionStep | main.py:264-274 | a term, a comparison (`>`, `<`, a lone `=`, or `=` `=` read as `==`) and a term give a `Compare` node |
| GrammarProps.ConditionAtBare | main.py:275 | a term not followed by a comparison symbol is returned as the condition itself |
| GrammarProps.RouteParamsDefault | main.py:146-167 | a bare `REQ_BODY` means the single parameter `int newuser`; with neither `REQ_BODY` nor `[`, there are no parameters and nothing is consumed |
| GrammarProps.ReqBodyBracketed | main.py:146-167 | `REQ_BODY [int newuser]` yields the same parameter list as a bare `REQ_BODY` |
| GrammarProps.ParamListAtPrinted | main.py:151-163 | a bracketed `type name, ...` list yields its parameters in source order and consumes the closing `]` |
| GrammarProps.RouteBodyUnclosed | main.py:201-215 | a route body with no `}` after it always fails |
| GrammarProps.ApiBodyUnclosed | main.py:63-77 | an api body with no `}` after it always fails |
| GrammarProps.IfBodyUnclosed | main.py:231-243 | an if body with no `}` and no statements after it ends silently at the end of the input |
| GrammarProps.ProgramWithoutApi | main.py:46-54 | with no `api` identifier left, the top-level loop skips every token and adds nothing |
| Compiler.Compile | main.py:650-661 | compilation succeeds iff the program parses, holds at least one api and all its conditions can be emitted; the output is then `gen_c_code` of the parsed apis, and a parse error is reported as a syntax error |
| Compiler.CompileSource | main.py:650-661 | running the lexer loop and the `Parser` object gives exactly `Compile` |
| Compiler.CompileWithoutApi | main.py:654-656 | a text with no `api` identifier is refused with "no api found" |
| Compiler.PrecedenceExample | main.py:97-117 | the tokens of `2 + 3 * 4` parse as `2 + (3 * 4)` and print as `(2 + (3 * 4))` |
| EmitProps.ConditionToCUniform | main.py:347-362 | all the reachable branches of `condition_to_c` print `left op right` with the operands in `expr_to_c` form |
| EmitProps.ConditionToCCompare | main.py:347-362 | a comparison prints its operator verbatim: a lone `=` stays ` = `, and `==` prints as ` == ` |
| EmitProps.ConditionToCBareBinOp | main.py:275 | a bare arithmetic condition prints as its operation without the outer parentheses |
| EmitProps.EscapeIsPerChar | main.py:370 | the three chained replacements (backslash first, then quote, then newline) escape each character on its own, so no replacement rewrites the output of an earlier one |
| EmitProps.EscapeRoundTrip | main.py:370 | reading the escaped literal as C reads it gives back the original string |
| EmitProps.ArgsOfValues | main.py:368-377 | one argument per variable or array part, in order, with the array index printed by `expr_to_c` |
| EmitProps.ReturnPartsAppend | main.py:368-377 | the format and the argument list are built part by part |
| EmitProps.ReturnUsesStrcpy | main.py:379-383 | `strcpy` is emitted iff every part is a string literal; otherwise `sprintf` with the arguments joined by `, ` |
| EmitProps.EscapeKeepsPercents | main.py:370 | escaping neither adds nor removes `%` characters |
| EmitProps.FormatMatchesArgs | main.py:368-377 | when no literal holds `%`, the format has exactly one `%` per argument |
| EmitProps.PercentLiteralBreaksFormat | main.py:370-371 | a literal `100%` followed by a variable gives two `%` in the format for one argument |
| EmitProps.JsonParserEmpty | main.py:387-388 | the JSON parser text is empty iff there are no parameters |
| EmitProps.ParamBlocksAppend | main.py:394-429 | parameter blocks are emitted per parameter, in order |
| EmitProps.JsonParserShape | main.py:390-432 | the parser is the two header lines, the parameter blocks and a closing brace; an int block has 10 lines, a string block 20, any other type none |
| EmitProps.StatementIndented | main.py:434-460 | every emitted statement line is indented at least twelve spaces, nested if-bodies included |
| EmitProps.BlockIndented | main.py:448-458 | the same holds for a block of statements |
| EmitProps.IndentLines | main.py:450-451 | nested lines get four more spaces, one line per line |
| EmitProps.StatementSilent | main.py:434-460 | a statement emits nothing iff it is a NoOp or a call other than `add`; a return emits four lines |
| EmitProps.GenBlockAppend | main.py:448-451 | a statement block is emitted statement by statement |
| EmitProps.InitBlockLines | main.py:581-586 | the startup section has one line per assignment or `add` call, in order, and skips every other statement |
| EmitProps.DeclLinesAppend | main.py:533-549 | global declarations are emitted per variable, in order |
| EmitProps.ListIntGlobal | main.py:545-547 | a `list int` global declares a 100-element array and a zero length counter |
| EmitProps.RouteBlockLinesAppend | main.py:608-623 | route blocks are emitted route by route, in order |
| EmitProps.RouteLinesShape | main.py:610-623 | a route block has its method-and-path guard on its second line, the JSON parser next when it has parameters, and a closing brace last |
| EmitProps.RouteGuardAt | main.py:608-623 | the block of the i-th route lies between the blocks of the routes before and after it |
| EmitProps.ApisAppend | main.py:533-623 | globals, startup lines and routes are each gathered api by api, in order |
| EmitProps.CodeLayoutHead | main.py:462-552 | the program starts with the prelude, then the globals, then `int main() {` |
| EmitProps.CodeLayoutTail | main.py:553-633 | after the server setup come the startup lines, the accept loop, the route blocks, and the 404 fallback last |

## Left out

- `main` is not part of this model: argument handling, reading the source file, writing `output.c`, and compiling or running the result.
- The verbatim C scaffold text (includes, helpers, server setup, accept loop, 404 fallback) is a parameter, not its literal content.
- The runtime behaviour of the generated C is not modelled. That covers request routing, first-match route order at run time, JSON parsing, C `int` overflow, the 100-element list capacity and the 256-byte strings.
- Python's `\d` also matches non-ASCII digits. The lexer accepts ASCII digits only.
- `tokenize` is a lazy generator. It is modelled as the sequence it yields.
- The `strcmp` branch of `condition_to_c` (main.py:359-360) needs string operands, which the parser never produces, so it is not modelled.
- Emit.ConditionToC: a bare condition that is not an arithmetic operation makes `condition_to_c` fail on a missing key. The emitter requires an emittable condition instead, and `Compiler.Compile` reports `BadCondition`.
- Nested `if` statements are never built by the parser, since if-bodies accept only `return` and assignment or call statements. The emitter handles them anyway.
- The read-back of printed expressions is proved for the token layout `Laid`, not for `tokenize` applied to the printed text.
- StmtProps: the block lemmas describe inputs laid out as the loops read them. Between statements or members they allow only tokens the loops skip, and between return parts a single `+`. A block that fails part-way, or a return with several `+` in a row, is described only by the progress contracts of the `Grammar` functions.
- Grammar.TermAt: Python's limits are not modelled. CPython 3.11 and later refuse to convert a number of more than 4300 digits with `int()` (main.py:123), and deep nesting of parentheses exceeds the recursion limit (main.py:97-140). Both depend on the interpreter's version and settings, and the source reports both as a parsing error (main.py:652-659). The model reads such input successfully, with unbounded integers and unbounded recursion.
