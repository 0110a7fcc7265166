/** Properties of the C emitters of main.py:335-633: how a condition is
    printed, what the escaping of a return literal means, how the `sprintf`
    format and its arguments line up, the indentation and order of the
    statement lines, and where route guards, startup lines and list globals
    land in the generated program. */
module EmitProps {
  import opened Decimal
  import opened SeqUtil
  import opened Ast
  import opened Emit

  // ---------------------------------------------------------------------
  // Conditions

  /** The special cases of `condition_to_c` for names and numbers print
      exactly what the general case would: every readable condition is
      `left op right`, each operand printed by `expr_to_c`, with no
      parentheses around the whole. */
  lemma ConditionToCUniform(c: Condition)
    requires CondEmittable(c)
    ensures ConditionToC(c) == ExprToC(CondLeft(c)) + " " + CondOpText(c) + " " + ExprToC(CondRight(c))
  {
  }

  /** A comparison keeps its symbol: `==` for two `=` tokens, a single `=`
      for a lone one, `>` and `<` as read. */
  lemma ConditionToCCompare(l: Expr, op: CmpOp, r: Expr)
    ensures ConditionToC(Compare(l, op, r)) == ExprToC(l) + " " + CmpText(op) + " " + ExprToC(r)
    ensures op == Eq ==> ConditionToC(Compare(l, op, r)) == ExprToC(l) + " = " + ExprToC(r)
    ensures op == EqEq ==> ConditionToC(Compare(l, op, r)) == ExprToC(l) + " == " + ExprToC(r)
  {
    ConditionToCUniform(Compare(l, op, r));
  }

  /** A bare arithmetic term used as a condition is printed from its own
      `left`, `op` and `right`, without the parentheses `expr_to_c` would
      put around it. */
  lemma ConditionToCBareBinOp(op: Op, l: Expr, r: Expr)
    ensures ConditionToC(Bare(BinOp(op, l, r))) == ExprToC(l) + " " + OpText(op) + " " + ExprToC(r)
    ensures "(" + ConditionToC(Bare(BinOp(op, l, r))) + ")" == ExprToC(BinOp(op, l, r))
  {
    ConditionToCUniform(Bare(BinOp(op, l, r)));
    var a, o, b := ExprToC(l), OpText(op), ExprToC(r);
    AppendAssoc("(", a, " ");
    AppendAssoc("(", a + " ", o);
    AppendAssoc("(", a + " " + o, " ");
    AppendAssoc("(", a + " " + o + " ", b);
  }

  // ---------------------------------------------------------------------
  // Escaping of return literals

  /** The escape of one character: `\`, `"` and newline become two
      characters, every other character stays. */
  function EscChar(c: char): (r: string)
    ensures (c == '\\' || c == '"' || c == '\n') <==> |r| == 2
    ensures |r| == 2 ==> r[0] == '\\'
    ensures |r| == 1 ==> r == [c]
  {
    if c == '\\' then "\\\\"
    else if c == '"' then "\\\""
    else if c == '\n' then "\\n"
    else [c]
  }

  /** Escaping character by character, the reference for `Escape`. */
  function EscapeSpec(s: string): string {
    if s == [] then "" else EscChar(s[0]) + EscapeSpec(s[1..])
  }

  lemma {:induction false} ReplaceCharAppend(a: string, b: string, c: char, rep: string)
    ensures ReplaceChar(a + b, c, rep) == ReplaceChar(a, c, rep) + ReplaceChar(b, c, rep)
    decreases |a|
  {
    if a == [] {
      assert a + b == b;
    } else {
      TailAppend(a, b);
      ReplaceCharAppend(a[1..], b, c, rep);
    }
  }

  lemma {:induction false} ReplaceCharAbsent(s: string, c: char, rep: string)
    requires c !in s
    ensures ReplaceChar(s, c, rep) == s
    decreases |s|
  {
    if s != [] {
      assert s[1..] + [] == s[1..];
      ReplaceCharAbsent(s[1..], c, rep);
    }
  }

  lemma ReplaceCharSingle(x: char, c: char, rep: string)
    ensures ReplaceChar([x], c, rep) == if x == c then rep else [x]
  {
    assert [x][1..] == [];
  }

  /** Escaping distributes over concatenation. */
  lemma EscapeAppend(a: string, b: string)
    ensures Escape(a + b) == Escape(a) + Escape(b)
  {
    var a1, b1 := ReplaceChar(a, '\\', "\\\\"), ReplaceChar(b, '\\', "\\\\");
    ReplaceCharAppend(a, b, '\\', "\\\\");
    var a2, b2 := ReplaceChar(a1, '"', "\\\""), ReplaceChar(b1, '"', "\\\"");
    ReplaceCharAppend(a1, b1, '"', "\\\"");
    ReplaceCharAppend(a2, b2, '\n', "\\n");
  }

  /** Backslashes are doubled first, so the backslashes the later two
      replacements insert are not doubled again: each character is escaped
      once. */
  lemma EscapeOneChar(c: char)
    ensures Escape([c]) == EscChar(c)
  {
    ReplaceCharSingle(c, '\\', "\\\\");
    var r1 := ReplaceChar([c], '\\', "\\\\");
    if c == '\\' {
      ReplaceCharAbsent(r1, '"', "\\\"");
      ReplaceCharAbsent(r1, '\n', "\\n");
    } else if c == '"' {
      ReplaceCharSingle(c, '"', "\\\"");
      ReplaceCharAbsent("\\\"", '\n', "\\n");
    } else {
      ReplaceCharSingle(c, '"', "\\\"");
      ReplaceCharSingle(c, '\n', "\\n");
    }
  }

  /** The three chained replacements are the per-character escape. */
  lemma {:induction false} EscapeIsPerChar(s: string)
    ensures Escape(s) == EscapeSpec(s)
    decreases |s|
  {
    if s != [] {
      assert s == [s[0]] + s[1..];
      EscapeAppend([s[0]], s[1..]);
      EscapeOneChar(s[0]);
      EscapeIsPerChar(s[1..]);
    }
  }

  /** How a C compiler reads the escapes `\\`, `\"` and `\n` inside a
      string literal. */
  function Unescape(t: string): string
    decreases |t|
  {
    if t == [] then ""
    else if t[0] == '\\' && |t| >= 2 then [if t[1] == 'n' then '\n' else t[1]] + Unescape(t[2..])
    else [t[0]] + Unescape(t[1..])
  }

  lemma {:induction false} UnescapeEscapeSpec(s: string)
    ensures Unescape(EscapeSpec(s)) == s
    decreases |s|
  {
    if s != [] {
      var e, rest := EscChar(s[0]), EscapeSpec(s[1..]);
      var t := e + rest;
      UnescapeEscapeSpec(s[1..]);
      if |e| == 2 {
        assert t[0] == '\\' && t[2..] == rest;
      } else {
        assert t[0] == s[0] != '\\' && t[1..] == rest;
      }
      assert s == [s[0]] + s[1..];
    }
  }

  /** A return literal survives the trip into the C source: the escaped
      text, read back as a C string literal, is the literal itself. */
  lemma EscapeRoundTrip(s: string)
    ensures Unescape(Escape(s)) == s
  {
    EscapeIsPerChar(s);
    UnescapeEscapeSpec(s);
  }

  // ---------------------------------------------------------------------
  // The sprintf format and its arguments

  /** Whether a return part is a value (`varref` or `arrayref`). */
  predicate IsValuePart(p: ReturnPart) {
    p.VarPart? || p.ArrayPart?
  }

  function ValueCount(parts: seq<ReturnPart>): nat {
    if parts == [] then 0 else (if IsValuePart(parts[0]) then 1 else 0) + ValueCount(parts[1..])
  }

  /** The C expression a value part is printed as. */
  function ArgText(p: ReturnPart): string
    requires IsValuePart(p)
  {
    if p.VarPart? then p.name else ExprToC(ArrayRef(p.name, p.index))
  }

  /** The value parts of a return, in order. */
  function ValueParts(parts: seq<ReturnPart>): seq<ReturnPart> {
    if parts == [] then []
    else (if IsValuePart(parts[0]) then [parts[0]] else []) + ValueParts(parts[1..])
  }

  /** There is one argument per value part, and the arguments come in the
      order of the parts. */
  lemma {:induction false} ArgsOfValues(parts: seq<ReturnPart>)
    ensures |ArgsOf(parts)| == |ValueParts(parts)| == ValueCount(parts)
    ensures forall k :: 0 <= k < |ArgsOf(parts)| ==>
      IsValuePart(ValueParts(parts)[k]) && ArgsOf(parts)[k] == ArgText(ValueParts(parts)[k])
    decreases |parts|
  {
    if parts != [] {
      ArgsOfValues(parts[1..]);
      var rest, vrest := ArgsOf(parts[1..]), ValueParts(parts[1..]);
      if IsValuePart(parts[0]) {
        assert ArgsOf(parts) == [ArgText(parts[0])] + rest;
        assert ValueParts(parts) == [parts[0]] + vrest;
        forall k | 1 <= k < |ArgsOf(parts)|
          ensures IsValuePart(ValueParts(parts)[k]) && ArgsOf(parts)[k] == ArgText(ValueParts(parts)[k])
        {
          assert ArgsOf(parts)[k] == rest[k - 1] && ValueParts(parts)[k] == vrest[k - 1];
        }
      } else {
        assert ArgsOf(parts) == rest && ValueParts(parts) == vrest;
      }
    }
  }

  /** The format and the arguments distribute over the parts, so both keep
      the parts' order. */
  lemma {:induction false} ReturnPartsAppend(a: seq<ReturnPart>, b: seq<ReturnPart>)
    ensures FormatOf(a + b) == FormatOf(a) + FormatOf(b)
    ensures ArgsOf(a + b) == ArgsOf(a) + ArgsOf(b)
    decreases |a|
  {
    if a == [] {
      assert a + b == b;
    } else {
      TailAppend(a, b);
      ReturnPartsAppend(a[1..], b);
      AppendAssoc(FormatPiece(a[0]), FormatOf(a[1..]), FormatOf(b));
      match a[0] {
        case StrPart(_) =>
        case VarPart(n) =>
          AppendAssoc([n], ArgsOf(a[1..]), ArgsOf(b));
        case ArrayPart(n, index) =>
          AppendAssoc([n + "[" + ExprToC(index) + "]"], ArgsOf(a[1..]), ArgsOf(b));
      }
    }
  }

  /** `strcpy` is emitted exactly when no part is a value; otherwise
      `sprintf` with the arguments joined by `, `. */
  lemma {:induction false} ReturnUsesStrcpy(parts: seq<ReturnPart>)
    ensures (forall i :: 0 <= i < |parts| ==> parts[i].StrPart?) <==> ArgsOf(parts) == []
    ensures (forall i :: 0 <= i < |parts| ==> parts[i].StrPart?) ==>
      ReturnPartsToC(parts) == "strcpy(resp, \"" + FormatOf(parts) + "\");"
    ensures (exists i :: 0 <= i < |parts| && IsValuePart(parts[i])) ==>
      ReturnPartsToC(parts) == "sprintf(resp, \"" + FormatOf(parts) + "\", " + Join(ArgsOf(parts), ", ") + ");"
    decreases |parts|
  {
    if parts != [] {
      ReturnUsesStrcpy(parts[1..]);
      assert forall i :: 1 <= i < |parts| ==> parts[i] == parts[1..][i - 1];
    }
  }

  /** The number of `%` characters in a string. */
  function Percents(s: string): nat {
    if s == [] then 0 else (if s[0] == '%' then 1 else 0) + Percents(s[1..])
  }

  lemma {:induction false} PercentsAppend(a: string, b: string)
    ensures Percents(a + b) == Percents(a) + Percents(b)
    decreases |a|
  {
    if a == [] {
      assert a + b == b;
    } else {
      TailAppend(a, b);
      PercentsAppend(a[1..], b);
    }
  }

  /** Escaping neither adds nor removes a `%`. */
  lemma {:induction false} EscapeKeepsPercents(s: string)
    ensures Percents(Escape(s)) == Percents(s)
    decreases |s|
  {
    EscapeIsPerChar(s);
    if s != [] {
      PercentsAppend(EscChar(s[0]), EscapeSpec(s[1..]));
      EscapeKeepsPercents(s[1..]);
      EscapeIsPerChar(s[1..]);
    }
  }

  /** No literal part contains a `%`. */
  predicate NoPercentLiteral(parts: seq<ReturnPart>) {
    forall i :: 0 <= i < |parts| ==> parts[i].StrPart? ==> Percents(parts[i].value) == 0
  }

  /** When the literals hold no `%`, the format has exactly one conversion
      `%d` per argument. */
  lemma {:induction false} FormatMatchesArgs(parts: seq<ReturnPart>)
    requires NoPercentLiteral(parts)
    ensures Percents(FormatOf(parts)) == |ArgsOf(parts)|
    decreases |parts|
  {
    if parts != [] {
      assert NoPercentLiteral(parts[1..]) by {
        forall i | 0 <= i < |parts[1..]| ensures parts[1..][i].StrPart? ==> Percents(parts[1..][i].value) == 0 {
          assert parts[1..][i] == parts[i + 1];
        }
      }
      FormatMatchesArgs(parts[1..]);
      PercentsAppend(FormatPiece(parts[0]), FormatOf(parts[1..]));
      if parts[0].StrPart? {
        EscapeKeepsPercents(parts[0].value);
      } else {
        assert Percents("%d") == 1;
      }
    }
  }

  /** A `%` inside a literal is copied into the format unescaped, so the
      format then holds more `%` than there are arguments. */
  lemma PercentLiteralBreaksFormat()
    ensures var parts := [StrPart("100%"), VarPart("n")];
      Percents(FormatOf(parts)) == 2 && |ArgsOf(parts)| == 1
  {
    var parts := [StrPart("100%"), VarPart("n")];
    EscapeIsPerChar("100%");
    assert FormatOf(parts) == "100%" + "%d" by {
      assert parts[1..] == [VarPart("n")];
      assert FormatOf(parts[1..][1..]) == "";
    }
    PercentsAppend("100%", "%d");
    assert Percents("100%") == 1;
  }

  // ---------------------------------------------------------------------
  // Statement lines

  /** A line begins with at least `n` spaces. */
  predicate Indented(line: string, n: nat) {
    |line| >= n && forall i :: 0 <= i < n ==> line[i] == ' '
  }

  predicate AllIndented(lines: seq<string>, n: nat) {
    forall i :: 0 <= i < |lines| ==> Indented(lines[i], n)
  }

  lemma AllIndentedAppend(a: seq<string>, b: seq<string>, n: nat)
    requires AllIndented(a, n) && AllIndented(b, n)
    ensures AllIndented(a + b, n)
  {
    forall i | 0 <= i < |a + b| ensures Indented((a + b)[i], n) {
      if i >= |a| {
        assert (a + b)[i] == b[i - |a|];
      }
    }
  }

  /** `Indent` adds four spaces to each line and keeps the lines. */
  lemma {:induction false} IndentLines(lines: seq<string>)
    ensures |Indent(lines)| == |lines|
    ensures forall i :: 0 <= i < |lines| ==> Indent(lines)[i] == "    " + lines[i]
    decreases |lines|
  {
    if lines != [] {
      IndentLines(lines[1..]);
    }
  }

  lemma IndentDeepens(lines: seq<string>, n: nat)
    requires AllIndented(lines, n)
    ensures AllIndented(Indent(lines), n + 4) && AllIndented(Indent(lines), n)
  {
    IndentLines(lines);
    forall i | 0 <= i < |Indent(lines)| ensures Indented(Indent(lines)[i], n + 4) {
      var l := Indent(lines)[i];
      assert l == "    " + lines[i];
      forall j | 0 <= j < n + 4 ensures l[j] == ' ' {
        if j >= 4 {
          assert l[j] == lines[i][j - 4];
        }
      }
    }
  }

  lemma IndentedExtend(a: string, b: string, n: nat)
    requires Indented(a, n)
    ensures Indented(a + b, n)
  {
    assert forall i :: 0 <= i < n ==> (a + b)[i] == a[i];
  }

  /** Every line a statement produces is indented by at least twelve
      spaces, the body level of a route; nested blocks go four deeper. */
  lemma {:induction false} StatementIndented(s: Stmt)
    requires StmtEmittable(s)
    ensures AllIndented(GenerateStatementC(s), 12)
    decreases s, 1
  {
    match s
    case If(c, t, e) =>
      IfIndented(s);
    case Assign(name, e) =>
      AssignIndented(name, e);
    case Call(target, func, arg) =>
      if func == "add" {
        AddIndented(target, arg);
      }
    case Return(parts) =>
      ReturnIndented(parts);
    case NoOp =>
  }

  lemma AssignIndented(name: string, e: Expr)
    ensures AllIndented(GenerateStatementC(Assign(name, e)), 12)
  {
    var pad := StmtIndent;
    assert Indented(pad, 12);
    IndentedExtend(pad, name, 12);
    IndentedExtend(pad + name, " = ", 12);
    IndentedExtend(pad + name + " = ", ExprToC(e), 12);
    IndentedExtend(pad + name + " = " + ExprToC(e), ";", 12);
  }

  lemma AddIndented(target: string, arg: Expr)
    ensures AllIndented(GenerateStatementC(Call(target, "add", arg)), 12)
  {
    var pad := StmtIndent;
    assert Indented(pad, 12);
    IndentedExtend(pad, target, 12);
    IndentedExtend(pad + target, "[", 12);
    IndentedExtend(pad + target + "[", target, 12);
    IndentedExtend(pad + target + "[" + target, "_len++] = ", 12);
    IndentedExtend(pad + target + "[" + target + "_len++] = ", ExprToC(arg), 12);
    IndentedExtend(pad + target + "[" + target + "_len++] = " + ExprToC(arg), ";", 12);
  }

  lemma ReturnIndented(parts: seq<ReturnPart>)
    ensures AllIndented(GenerateStatementC(Return(parts)), 12)
  {
    var pad := StmtIndent;
    assert Indented(pad, 12);
    IndentedExtend(pad, ReturnPartsToC(parts), 12);
    IndentedExtend(pad, "send_response(client, resp, \"application/json\", 200);", 12);
    IndentedExtend(pad, "closesocket(client);", 12);
    IndentedExtend(pad, "continue;", 12);
  }

  lemma {:induction false} IfIndented(s: Stmt)
    requires s.If? && StmtEmittable(s)
    ensures AllIndented(GenerateStatementC(s), 12)
    decreases s, 0
  {
    var pad := StmtIndent;
    assert Indented(pad, 12);
    IndentedExtend(pad, "if (", 12);
    IndentedExtend(pad + "if (", ConditionToC(s.cond), 12);
    IndentedExtend(pad + "if (" + ConditionToC(s.cond), ") {", 12);
    IndentedExtend(pad, "}", 12);
    var head: seq<string> := [pad + "if (" + ConditionToC(s.cond) + ") {"];
    var close: seq<string> := [pad + "}"];
    BlockIndented(s.thenBody);
    IndentDeepens(GenBlock(s.thenBody), 12);
    AllIndentedAppend(head, Indent(GenBlock(s.thenBody)), 12);
    AllIndentedAppend(head + Indent(GenBlock(s.thenBody)), close, 12);
    var main := head + Indent(GenBlock(s.thenBody)) + close;
    if s.elseBody != [] {
      IndentedExtend(pad, "else {", 12);
      var open: seq<string> := [pad + "else {"];
      BlockIndented(s.elseBody);
      IndentDeepens(GenBlock(s.elseBody), 12);
      AllIndentedAppend(open, Indent(GenBlock(s.elseBody)), 12);
      AllIndentedAppend(open + Indent(GenBlock(s.elseBody)), close, 12);
      AllIndentedAppend(main, open + Indent(GenBlock(s.elseBody)) + close, 12);
    } else {
      assert main + [] == main;
    }
  }

  lemma {:induction false} BlockIndented(ss: seq<Stmt>)
    requires BlockEmittable(ss)
    ensures AllIndented(GenBlock(ss), 12)
    decreases ss
  {
    if ss != [] {
      StatementIndented(ss[0]);
      BlockIndented(ss[1..]);
      AllIndentedAppend(GenerateStatementC(ss[0]), GenBlock(ss[1..]), 12);
    }
  }

  /** A statement produces no line exactly when it is a `noop` or a call
      other than `add`; a `return` always produces its four lines. */
  lemma StatementSilent(s: Stmt)
    requires StmtEmittable(s)
    ensures GenerateStatementC(s) == [] <==> s.NoOp? || (s.Call? && s.func != "add")
    ensures s.Return? ==> |GenerateStatementC(s)| == 4
  {
  }

  /** The lines of a statement list are the lines of its parts, in order. */
  lemma {:induction false} GenBlockAppend(a: seq<Stmt>, b: seq<Stmt>)
    requires BlockEmittable(a) && BlockEmittable(b)
    ensures BlockEmittable(a + b)
    ensures GenBlock(a + b) == GenBlock(a) + GenBlock(b)
    decreases |a|
  {
    if a == [] {
      assert a + b == b;
    } else {
      TailAppend(a, b);
      GenBlockAppend(a[1..], b);
      AppendAssoc(GenerateStatementC(a[0]), GenBlock(a[1..]), GenBlock(b));
    }
  }

  // ---------------------------------------------------------------------
  // The JSON extractor

  lemma {:induction false} JoinHead(parts: seq<string>, sep: string)
    requires parts != []
    ensures |Join(parts, sep)| >= |parts[0]|
    ensures Join(parts, sep)[..|parts[0]|] == parts[0]
  {
  }

  /** The extractor is empty exactly when there are no parameters. */
  lemma JsonParserEmpty(params: seq<Param>)
    ensures GenerateJsonParser(params) == "" <==> params == []
  {
    if params != [] {
      JoinHead(JsonParserLines(params), "\n");
    }
  }

  /** One block per parameter, in the order of the parameters. */
  lemma {:induction false} ParamBlocksAppend(a: seq<Param>, b: seq<Param>)
    ensures ParamBlocks(a + b) == ParamBlocks(a) + ParamBlocks(b)
    decreases |a|
  {
    if a == [] {
      assert a + b == b;
    } else {
      TailAppend(a, b);
      ParamBlocksAppend(a[1..], b);
    }
  }

  /** The extractor is a guarded block: the comment, the `if` that checks
      for a body, the parameter blocks, and the closing brace. Only `int`
      and `string` parameters get a block, of 10 and 20 lines. */
  lemma JsonParserShape(params: seq<Param>)
    ensures JsonParserLines(params)[..2] == JsonHeader
    ensures JsonParserLines(params)[2..|JsonParserLines(params)| - 1] == ParamBlocks(params)
    ensures JsonParserLines(params)[|JsonParserLines(params)| - 1] == "        }"
    ensures forall p: Param :: |ParamBlock(p)| == (if p.typ == "int" then 10 else if p.typ == "string" then 20 else 0)
  {
  }

  // ---------------------------------------------------------------------
  // The whole program

  /** A startup statement emits a line: an assignment or an `add` call. */
  predicate IsInitStmt(s: Stmt) {
    s.Assign? || (s.Call? && s.func == "add")
  }

  function InitStmts(ss: seq<Stmt>): seq<Stmt> {
    if ss == [] then [] else (if IsInitStmt(ss[0]) then [ss[0]] else []) + InitStmts(ss[1..])
  }

  /** The startup block has one line per assignment or `add` call, in
      order, and skips every other statement. */
  lemma {:induction false} InitBlockLines(ss: seq<Stmt>)
    ensures |InitBlock(ss)| == |InitStmts(ss)|
    ensures forall k :: 0 <= k < |InitStmts(ss)| ==>
      IsInitStmt(InitStmts(ss)[k]) && [InitBlock(ss)[k]] == InitLine(InitStmts(ss)[k])
    decreases |ss|
  {
    if ss != [] {
      InitBlockLines(ss[1..]);
    }
  }

  lemma {:induction false} DeclLinesAppend(a: seq<VarDecl>, b: seq<VarDecl>)
    ensures DeclLines(a + b) == DeclLines(a) + DeclLines(b)
    decreases |a|
  {
    if a == [] {
      assert a + b == b;
    } else {
      TailAppend(a, b);
      DeclLinesAppend(a[1..], b);
    }
  }

  /** A `list int` global becomes a 100-element array and its length
      counter, between the lines of the globals before and after it. */
  lemma ListIntGlobal(vs: seq<VarDecl>, i: nat, name: string)
    requires i < |vs| && vs[i] == ListVar("int", name)
    ensures DeclLines(vs) ==
      DeclLines(vs[..i]) + ["int " + name + "[100]; int " + name + "_len = 0;"] + DeclLines(vs[i + 1..])
  {
    SplitAround(vs, i);
    DeclLinesAppend(vs[..i], [vs[i]] + vs[i + 1..]);
    DeclLinesAppend([vs[i]], vs[i + 1..]);
    assert DeclLines([vs[i]]) == GlobalDecl(vs[i]) by {
      assert [vs[i]][1..] == [];
    }
  }

  lemma {:induction false} RouteBlockLinesAppend(a: seq<Route>, b: seq<Route>)
    requires RoutesEmittable(a) && RoutesEmittable(b)
    ensures RoutesEmittable(a + b)
    ensures RouteBlockLines(a + b) == RouteBlockLines(a) + RouteBlockLines(b)
    decreases |a|
  {
    if a == [] {
      assert a + b == b;
    } else {
      TailAppend(a, b);
      RouteBlockLinesAppend(a[1..], b);
      AppendAssoc(RouteLines(a[0]), RouteBlockLines(a[1..]), RouteBlockLines(b));
    }
  }

  lemma {:induction false} RoutesEmittableSlices(routes: seq<Route>, i: nat)
    requires i < |routes| && RoutesEmittable(routes)
    ensures RoutesEmittable(routes[..i]) && RoutesEmittable([routes[i]])
    ensures RoutesEmittable(routes[i + 1..]) && RoutesEmittable([routes[i]] + routes[i + 1..])
  {
    assert forall k :: 0 <= k < i ==> routes[..i][k] == routes[k];
    var after := routes[i + 1..];
    var rest := [routes[i]] + after;
    assert forall k :: 0 <= k < |after| ==> after[k] == routes[i + 1 + k];
    assert forall k :: 0 <= k < |rest| ==> rest[k] == routes[i + k];
  }

  /** The lines of a route: its comment, its guard, the JSON extractor when
      it has parameters, its body, and the closing brace. */
  lemma RouteLinesShape(r: Route)
    requires BlockEmittable(r.body)
    ensures RouteLines(r)[1] == RouteGuard(r)
    ensures r.params != [] ==> RouteLines(r)[2] == GenerateJsonParser(r.params)
    ensures RouteLines(r)[|RouteLines(r)| - 1] == "        }"
  {
  }

  /** Route `i` is dispatched by its own block, after every earlier route
      and before every later one. */
  lemma RouteGuardAt(routes: seq<Route>, i: nat)
    requires i < |routes| && RoutesEmittable(routes)
    ensures RoutesEmittable(routes[..i]) && RoutesEmittable(routes[i + 1..])
    ensures RouteBlockLines(routes) ==
      RouteBlockLines(routes[..i]) + RouteLines(routes[i]) + RouteBlockLines(routes[i + 1..])
  {
    var r := routes[i];
    var before, after := routes[..i], routes[i + 1..];
    RoutesEmittableSlices(routes, i);
    SplitAround(routes, i);
    RouteBlockLinesAppend(before, [r] + after);
    RouteBlockLinesAppend([r], after);
    RouteBlockLinesSingle(r);
    AppendAssoc(RouteBlockLines(before), RouteLines(r), RouteBlockLines(after));
  }

  lemma RouteBlockLinesSingle(r: Route)
    requires BlockEmittable(r.body)
    ensures RoutesEmittable([r]) && RouteBlockLines([r]) == RouteLines(r)
  {
    assert [r][1..] == [];
  }

  /** A sequence is what comes before position `i`, the element there, and
      what comes after. */
  lemma SplitAround<T>(s: seq<T>, i: nat)
    requires i < |s|
    ensures s == s[..i] + ([s[i]] + s[i + 1..])
  {
  }

  lemma {:induction false} ApisEmittableAppend(a: seq<Api>, b: seq<Api>)
    requires ApisEmittable(a) && ApisEmittable(b)
    ensures ApisEmittable(a + b) && (a != [] ==> ApisEmittable(a[1..]) && RoutesEmittable(a[0].routes))
    ensures a != [] ==> (a + b)[0] == a[0] && (a + b)[1..] == a[1..] + b
  {
    assert forall k :: 0 <= k < |a + b| ==> (a + b)[k] == if k < |a| then a[k] else b[k - |a|];
    assert forall k :: 0 <= k < |a| - 1 ==> a[1..][k] == a[k + 1];
  }

  /** Globals of earlier apis come before those of later ones, and so do
      their startup lines and their routes. */
  lemma {:induction false} ApisAppend(a: seq<Api>, b: seq<Api>)
    requires ApisEmittable(a) && ApisEmittable(b)
    ensures ApisEmittable(a + b)
    ensures GlobalLines(a + b) == GlobalLines(a) + GlobalLines(b)
    ensures InitLines(a + b) == InitLines(a) + InitLines(b)
    ensures RouteSection(a + b) == RouteSection(a) + RouteSection(b)
    decreases |a|
  {
    ApisEmittableAppend(a, b);
    if a == [] {
      assert a + b == b;
    } else {
      ApisAppend(a[1..], b);
      AppendAssoc(DeclLines(a[0].globals), GlobalLines(a[1..]), GlobalLines(b));
      AppendAssoc(InitBlock(a[0].inits), InitLines(a[1..]), InitLines(b));
      AppendAssoc(RouteBlockLines(a[0].routes), RouteSection(a[1..]), RouteSection(b));
    }
  }

  /** Where the pieces of `gen_c_code`'s line list lie. */
  lemma CodePieces(pre: string, g: seq<string>, m: seq<string>, ini: seq<string>, acc: seq<string>,
                   r: seq<string>, f: string)
    requires |m| == 3 && |acc| == 2
    ensures var lines := [pre] + g + m + ini + acc + r + [f];
      lines[0] == pre && lines[1..|g| + 1] == g && lines[|g| + 2] == m[1] &&
      lines[|g| + 4..|g| + 4 + |ini|] == ini && lines[|g| + 5 + |ini|] == acc[1] &&
      lines[|g| + 6 + |ini|..|lines| - 1] == r && lines[|lines| - 1] == f
  {
  }

  /** The program opens with the fixed prelude, and the globals come
      before `int main() {`. */
  lemma CodeLayoutHead(apis: seq<Api>, sc: Scaffold)
    requires ApisEmittable(apis)
    ensures var lines := CodeLines(apis, sc);
      var g := |GlobalLines(apis)|;
      lines[0] == sc.prelude && lines[1..g + 1] == GlobalLines(apis) && lines[g + 2] == "int main() {"
  {
    CodePieces(sc.prelude, GlobalLines(apis), ["", "int main() {", sc.serverSetup], InitLines(apis),
      ["", sc.acceptLoop], RouteSection(apis), sc.fallback);
  }

  /** The startup lines come before the accept loop, the routes after it,
      and the 404 fallback closes the program. */
  lemma CodeLayoutTail(apis: seq<Api>, sc: Scaffold)
    requires ApisEmittable(apis)
    ensures var lines := CodeLines(apis, sc);
      var g := |GlobalLines(apis)|;
      var n := |InitLines(apis)|;
      lines[g + 4..g + 4 + n] == InitLines(apis) && lines[g + 5 + n] == sc.acceptLoop &&
      lines[g + 6 + n..|lines| - 1] == RouteSection(apis) && lines[|lines| - 1] == sc.fallback
  {
    CodePieces(sc.prelude, GlobalLines(apis), ["", "int main() {", sc.serverSetup], InitLines(apis),
      ["", sc.acceptLoop], RouteSection(apis), sc.fallback);
  }
}
