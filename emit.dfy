/** Lowering the syntax tree to C text (main.py:335-633). Every emitter only
    builds strings; the Python `for` loops that accumulate lines become
    recursion over the sequences they walk. */
module Emit {
  import opened Wrappers
  import opened Decimal
  import opened SeqUtil
  import opened Ast

  /** `expr_to_c` (main.py:335-345): numbers in decimal, names as written,
      `name[index]`, and every binary operation fully parenthesised. */
  function ExprToC(e: Expr): string {
    match e
    case Num(n) => NatToString(n)
    case VarRef(name) => name
    case ArrayRef(name, index) => name + "[" + ExprToC(index) + "]"
    case BinOp(op, l, r) => "(" + ExprToC(l) + " " + OpText(op) + " " + ExprToC(r) + ")"
  }

  /** A condition `condition_to_c` can read: a `compare` node, or a bare
      binop term, whose `left`, `op` and `right` keys it reads the same way.
      Any other bare term has no `left` key and makes it fail
      (main.py:349). */
  predicate CondEmittable(c: Condition) {
    c.Compare? || c.term.BinOp?
  }

  /** The `left`, `op` and `right` entries `condition_to_c` reads. */
  function CondLeft(c: Condition): Expr
    requires CondEmittable(c)
  {
    if c.Compare? then c.left else c.term.left
  }

  function CondRight(c: Condition): Expr
    requires CondEmittable(c)
  {
    if c.Compare? then c.right else c.term.right
  }

  function CondOpText(c: Condition): string
    requires CondEmittable(c)
  {
    if c.Compare? then CmpText(c.op) else OpText(c.term.op)
  }

  /** `condition_to_c` (main.py:347-362). Its branch for two `string`
      terms is left out: no parser path builds a `string` node. */
  function ConditionToC(c: Condition): string
    requires CondEmittable(c)
  {
    var left := CondLeft(c);
    var right := CondRight(c);
    var op := CondOpText(c);
    if left.VarRef? && right.VarRef? then left.name + " " + op + " " + right.name
    else if left.VarRef? && right.Num? then left.name + " " + op + " " + NatToString(right.value)
    else if left.Num? && right.VarRef? then NatToString(left.value) + " " + op + " " + right.name
    else ExprToC(left) + " " + op + " " + ExprToC(right)
  }

  /** `s.replace(c, rep)` for a one-character pattern. */
  function ReplaceChar(s: string, c: char, rep: string): string {
    if s == [] then ""
    else (if s[0] == c then rep else [s[0]]) + ReplaceChar(s[1..], c, rep)
  }

  /** The escaping of a return literal (main.py:370): backslash first, then
      the double quote, then newline. */
  function Escape(s: string): string {
    ReplaceChar(ReplaceChar(ReplaceChar(s, '\\', "\\\\"), '"', "\\\""), '\n', "\\n")
  }

  /** The piece one return part adds to the `sprintf` format. */
  function FormatPiece(p: ReturnPart): string {
    match p
    case StrPart(s) => Escape(s)
    case VarPart(_) => "%d"
    case ArrayPart(_, _) => "%d"
  }

  /** The `fmt` string `return_parts_to_c` accumulates (main.py:366-377). */
  function FormatOf(parts: seq<ReturnPart>): string {
    if parts == [] then "" else FormatPiece(parts[0]) + FormatOf(parts[1..])
  }

  /** The `args` list `return_parts_to_c` accumulates (main.py:367-377). */
  function ArgsOf(parts: seq<ReturnPart>): seq<string> {
    if parts == [] then []
    else
      var rest := ArgsOf(parts[1..]);
      match parts[0]
      case StrPart(_) => rest
      case VarPart(name) => [name] + rest
      case ArrayPart(name, index) => [name + "[" + ExprToC(index) + "]"] + rest
  }

  /** `return_parts_to_c` (main.py:364-383). */
  function ReturnPartsToC(parts: seq<ReturnPart>): string {
    var fmt := FormatOf(parts);
    var args := ArgsOf(parts);
    if args != [] then "sprintf(resp, \"" + fmt + "\", " + Join(args, ", ") + ");"
    else "strcpy(resp, \"" + fmt + "\");"
  }

  /** The extractor block for one `int` parameter (main.py:399-408). */
  function IntParamBlock(n: string): seq<string> {
    [ "            char* " + n + "_str = strstr(req.body, \"\\\"" + n + "\\\":\");",
      "            int " + n + " = 0;",
      "            if (" + n + "_str) {",
      "                " + n + "_str = strchr(" + n + "_str, ':');",
      "                if (" + n + "_str) {",
      "                    " + n + "_str++;",
      "                    while (*" + n + "_str == ' ' || *" + n + "_str == '\\t') " + n + "_str++;",
      "                    " + n + " = atoi(" + n + "_str);",
      "                }",
      "            }" ]
  }

  /** The extractor block for one `string` parameter (main.py:409-429). */
  function StringParamBlock(n: string): seq<string> {
    [ "            char " + n + "[256] = \"\";",
      "            char* " + n + "_start = strstr(req.body, \"\\\"" + n + "\\\":\");",
      "            if (" + n + "_start) {",
      "                " + n + "_start = strchr(" + n + "_start, ':');",
      "                if (" + n + "_start) {",
      "                    " + n + "_start++;",
      "                    while (*" + n + "_start == ' ' || *" + n + "_start == '\\t') " + n + "_start++;",
      "                    if (*" + n + "_start == '\"') {",
      "                        " + n + "_start++;",
      "                        char* " + n + "_end = strchr(" + n + "_start, '\"');",
      "                        if (" + n + "_end) {",
      "                            int len = " + n + "_end - " + n + "_start;",
      "                            if (len < 255) {",
      "                                memcpy(" + n + ", " + n + "_start, len);",
      "                                " + n + "[len] = 0;",
      "                            }",
      "                        }",
      "                    }",
      "                }",
      "            }" ]
  }

  /** The lines one parameter contributes: the int block, the string block,
      or nothing for any other type. */
  function ParamBlock(p: Param): seq<string> {
    if p.typ == "int" then IntParamBlock(p.name)
    else if p.typ == "string" then StringParamBlock(p.name)
    else []
  }

  function ParamBlocks(params: seq<Param>): seq<string> {
    if params == [] then [] else ParamBlock(params[0]) + ParamBlocks(params[1..])
  }

  const JsonHeader: seq<string> := [
    "        // Parse JSON parameters",
    "        if (req.content_length > 0 && strlen(req.body) > 0) {"
  ]

  /** The lines of `generate_json_parser` for a non-empty parameter list. */
  function JsonParserLines(params: seq<Param>): seq<string> {
    JsonHeader + ParamBlocks(params) + ["        }"]
  }

  /** `generate_json_parser` (main.py:385-432). */
  function GenerateJsonParser(params: seq<Param>): string {
    if params == [] then "" else Join(JsonParserLines(params), "\n")
  }

  /** A statement `generate_statement_c` can lower without failing: every
      `if` in it has a condition `condition_to_c` can read. */
  predicate StmtEmittable(s: Stmt) {
    match s
    case If(c, t, e) =>
      CondEmittable(c) &&
      (forall i :: 0 <= i < |t| ==> StmtEmittable(t[i])) &&
      (forall i :: 0 <= i < |e| ==> StmtEmittable(e[i]))
    case _ => true
  }

  predicate BlockEmittable(ss: seq<Stmt>) {
    forall i :: 0 <= i < |ss| ==> StmtEmittable(ss[i])
  }

  /** Four more spaces in front of every line (main.py:451, 458). */
  function Indent(lines: seq<string>): seq<string> {
    if lines == [] then [] else ["    " + lines[0]] + Indent(lines[1..])
  }

  /** The indentation of a statement inside a route body. */
  const StmtIndent := "            "

  /** `generate_statement_c` (main.py:434-460). */
  function GenerateStatementC(s: Stmt): seq<string>
    requires StmtEmittable(s)
    decreases s
  {
    match s
    case Assign(name, e) => [StmtIndent + name + " = " + ExprToC(e) + ";"]
    case Call(target, func, arg) =>
      if func == "add" then [StmtIndent + target + "[" + target + "_len++] = " + ExprToC(arg) + ";"]
      else []
    case Return(parts) =>
      [ StmtIndent + ReturnPartsToC(parts),
        StmtIndent + "send_response(client, resp, \"application/json\", 200);",
        StmtIndent + "closesocket(client);",
        StmtIndent + "continue;" ]
    case If(c, t, e) =>
      [StmtIndent + "if (" + ConditionToC(c) + ") {"] + Indent(GenBlock(t)) + [StmtIndent + "}"] +
      (if e != [] then [StmtIndent + "else {"] + Indent(GenBlock(e)) + [StmtIndent + "}"] else [])
    case NoOp => []
  }

  /** The lines of a statement list, in order. */
  function GenBlock(ss: seq<Stmt>): seq<string>
    requires BlockEmittable(ss)
    decreases ss
  {
    if ss == [] then [] else GenerateStatementC(ss[0]) + GenBlock(ss[1..])
  }

  /** The constant C text `gen_c_code` splices its output between: the
      includes, `send_response` and `parse_request` (main.py:464-530), the
      Winsock setup (main.py:553-578), the head of the accept loop
      (main.py:590-605) and the 404 fallback with the cleanup
      (main.py:625-632). */
  datatype Scaffold = Scaffold(prelude: string, serverSetup: string, acceptLoop: string, fallback: string)

  /** The line a global declaration becomes (main.py:535-549). */
  function GlobalDecl(v: VarDecl): seq<string> {
    match v
    case ScalarVar(t, name, init) =>
      if t == "int" then
        (if init.Some? then ["int " + name + " = " + ExprToC(init.value) + ";"]
         else ["int " + name + " = 0;"])
      else if t == "string" then
        (if init.Some? then ["char " + name + "[256] = " + ExprToC(init.value) + ";"]
         else ["char " + name + "[256] = \"\";"])
      else []
    case ListVar(sub, name) =>
      if sub == "int" then ["int " + name + "[100]; int " + name + "_len = 0;"]
      else if sub == "string" then ["char " + name + "[100][256]; int " + name + "_len = 0;"]
      else []
  }

  function DeclLines(vs: seq<VarDecl>): seq<string> {
    if vs == [] then [] else GlobalDecl(vs[0]) + DeclLines(vs[1..])
  }

  function GlobalLines(apis: seq<Api>): seq<string> {
    if apis == [] then [] else DeclLines(apis[0].globals) + GlobalLines(apis[1..])
  }

  /** The line a startup statement becomes (main.py:581-586): only `add`
      calls and assignments produce one. */
  function InitLine(s: Stmt): seq<string> {
    if s.Call? && s.func == "add" then ["    " + s.target + "[" + s.target + "_len++] = " + ExprToC(s.arg) + ";"]
    else if s.Assign? then ["    " + s.name + " = " + ExprToC(s.expr) + ";"]
    else []
  }

  function InitBlock(ss: seq<Stmt>): seq<string> {
    if ss == [] then [] else InitLine(ss[0]) + InitBlock(ss[1..])
  }

  function InitLines(apis: seq<Api>): seq<string> {
    if apis == [] then [] else InitBlock(apis[0].inits) + InitLines(apis[1..])
  }

  predicate RoutesEmittable(routes: seq<Route>) {
    forall i :: 0 <= i < |routes| ==> BlockEmittable(routes[i].body)
  }

  /** Every route of every api can be lowered. */
  predicate ApisEmittable(apis: seq<Api>) {
    forall i :: 0 <= i < |apis| ==> RoutesEmittable(apis[i].routes)
  }

  /** The `if(strcmp(...) ...)` line that dispatches to a route. */
  function RouteGuard(r: Route): string {
    "        if(strcmp(req.method, \"" + r.verb + "\") == 0 && strcmp(req.path, \"" + r.path + "\") == 0) {"
  }

  /** The lines of one route (main.py:610-623). */
  function RouteLines(r: Route): seq<string>
    requires BlockEmittable(r.body)
  {
    ["        // " + r.verb + " " + r.path, RouteGuard(r)] +
    (if r.params != [] then [GenerateJsonParser(r.params)] else []) +
    GenBlock(r.body) +
    ["        }"]
  }

  function RouteBlockLines(routes: seq<Route>): seq<string>
    requires RoutesEmittable(routes)
  {
    if routes == [] then [] else RouteLines(routes[0]) + RouteBlockLines(routes[1..])
  }

  function RouteSection(apis: seq<Api>): seq<string>
    requires ApisEmittable(apis)
  {
    if apis == [] then [] else RouteBlockLines(apis[0].routes) + RouteSection(apis[1..])
  }

  /** The lines `gen_c_code` joins (main.py:462-632). */
  function CodeLines(apis: seq<Api>, sc: Scaffold): seq<string>
    requires ApisEmittable(apis)
  {
    [sc.prelude] + GlobalLines(apis) + ["", "int main() {", sc.serverSetup] + InitLines(apis) +
    ["", sc.acceptLoop] + RouteSection(apis) + [sc.fallback]
  }

  /** `gen_c_code` (main.py:462-633). */
  function GenCCode(apis: seq<Api>, sc: Scaffold): string
    requires ApisEmittable(apis)
  {
    Join(CodeLines(apis, sc), "\n")
  }
}
