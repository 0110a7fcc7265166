/** What the statement-level methods of `Parser` (main.py:46-333) build,
    stated for every token list in terms of the pieces they read: the
    declaration, statement, return, if, route and api nodes, and the order in
    which block loops collect them. */
module StmtProps {
  import opened Wrappers
  import opened Lexer
  import opened Ast
  import opened Grammar
  import SeqUtil

  // ---------------------------------------------------------------------
  // Declarations (main.py:80-95)

  /** `var list <sub> <name> ;` declares a list. */
  lemma ListVarAt(toks: seq<Token>, pos: nat, sub: string, name: string)
    requires pos + 5 <= |toks|
    requires IsIdAt(toks, pos, "var") && IsIdAt(toks, pos + 1, "list")
    requires toks[pos + 2] == Token(Id, sub) && toks[pos + 3] == Token(Id, name)
    requires IsSymbolAt(toks, pos + 4, ";")
    ensures VarAt(toks, pos) == Success(Parsed(ListVar(sub, name), pos + 5))
  {
  }

  /** `var <t> <name> ;` with any type other than `list` declares a scalar
      with no initializer. */
  lemma ScalarVarAt(toks: seq<Token>, pos: nat, t: ScalarType, name: string)
    requires pos + 4 <= |toks|
    requires IsIdAt(toks, pos, "var") && toks[pos + 1] == Token(Id, t) && toks[pos + 2] == Token(Id, name)
    requires IsSymbolAt(toks, pos + 3, ";")
    ensures VarAt(toks, pos) == Success(Parsed(ScalarVar(t, name, None), pos + 4))
  {
  }

  /** `var <t> <name> = <expr> ;` declares a scalar initialised with the
      expression read after `=`. */
  lemma ScalarVarInitAt(toks: seq<Token>, pos: nat, t: ScalarType, name: string, e: Expr, q: nat)
    requires pos + 4 <= |toks|
    requires IsIdAt(toks, pos, "var") && toks[pos + 1] == Token(Id, t) && toks[pos + 2] == Token(Id, name)
    requires IsSymbolAt(toks, pos + 3, "=")
    requires ExprAt(toks, pos + 4) == Success(Parsed(e, q)) && IsSymbolAt(toks, q, ";")
    ensures VarAt(toks, pos) == Success(Parsed(ScalarVar(t, name, Some(e)), q + 1))
  {
  }

  /** Whatever `parse_var` reads starts with `var`, and it is a list exactly
      when the type name is `list`; a scalar has an initializer exactly when
      `=` follows its name. */
  lemma VarAtKinds(toks: seq<Token>, pos: nat)
    requires pos <= |toks|
    ensures var r := VarAt(toks, pos);
      r.Success? ==>
        pos + 3 < |toks| && IsIdAt(toks, pos, "var") && toks[pos + 1].kind == Id &&
        (r.value.value.ListVar? <==> toks[pos + 1].lexeme == "list") &&
        (r.value.value.ScalarVar? ==>
          r.value.value.vartype == toks[pos + 1].lexeme && r.value.value.name == toks[pos + 2].lexeme &&
          (r.value.value.init.Some? <==> IsSymbolAt(toks, pos + 3, "=")))
  {
  }

  // ---------------------------------------------------------------------
  // Assignments and calls (main.py:277-300)

  /** `<name> = <expr> ;` is an assignment. */
  lemma AssignAt(toks: seq<Token>, pos: nat, name: string, e: Expr, q: nat)
    requires pos + 2 <= |toks| && toks[pos] == Token(Id, name) && IsSymbolAt(toks, pos + 1, "=")
    requires ExprAt(toks, pos + 2) == Success(Parsed(e, q)) && IsSymbolAt(toks, q, ";")
    ensures AssignOrCallAt(toks, pos) == Success(Parsed(Assign(name, e), q + 1))
  {
  }

  /** `<name> . <func> ( <expr> ) ;` is a method call. */
  lemma CallAt(toks: seq<Token>, pos: nat, name: string, func: string, arg: Expr, q: nat)
    requires pos + 4 <= |toks| && toks[pos] == Token(Id, name) && IsSymbolAt(toks, pos + 1, ".")
    requires toks[pos + 2] == Token(Id, func) && IsSymbolAt(toks, pos + 3, "(")
    requires ExprAt(toks, pos + 4) == Success(Parsed(arg, q))
    requires IsSymbolAt(toks, q, ")") && IsSymbolAt(toks, q + 1, ";")
    ensures AssignOrCallAt(toks, pos) == Success(Parsed(Call(name, func, arg), q + 2))
  {
  }

  /** `<name> ;` is read and dropped as a no-op. */
  lemma NoOpAt(toks: seq<Token>, pos: nat)
    requires pos + 1 < |toks| && toks[pos].kind == Id && IsSymbolAt(toks, pos + 1, ";")
    ensures AssignOrCallAt(toks, pos) == Success(Parsed(NoOp, pos + 2))
  {
  }

  /** `parse_assign_or_call` yields only assignments, calls and no-ops, and
      the symbol after the name decides which; input ending right after the
      name is an error. */
  lemma AssignOrCallKinds(toks: seq<Token>, pos: nat)
    requires pos <= |toks|
    ensures var r := AssignOrCallAt(toks, pos);
      (pos + 1 == |toks| && toks[pos].kind == Id ==> r == Failure(UnexpectedEnd)) &&
      (r.Success? ==>
        pos + 1 < |toks| && toks[pos].kind == Id &&
        (r.value.value.Assign? || r.value.value.Call? || r.value.value.NoOp?) &&
        (r.value.value.Assign? <==> IsSymbolAt(toks, pos + 1, "=")) &&
        (r.value.value.Call? <==> IsSymbolAt(toks, pos + 1, ".")) &&
        (r.value.value.NoOp? <==> IsSymbolAt(toks, pos + 1, ";")) &&
        (r.value.value.Assign? ==> r.value.value.name == toks[pos].lexeme) &&
        (r.value.value.Call? ==> r.value.value.target == toks[pos].lexeme))
  {
  }

  // ---------------------------------------------------------------------
  // Return statements (main.py:302-333)

  /** A name followed by `[` is an array element part, any other name a
      variable part. */
  lemma ValuePartKinds(toks: seq<Token>, pos: nat)
    requires pos < |toks| && toks[pos].kind == Id
    ensures !IsSymbolAt(toks, pos + 1, "[") ==>
      ValuePartAt(toks, pos) == Success(Parsed(VarPart(toks[pos].lexeme), pos + 1))
    ensures var r := ValuePartAt(toks, pos);
      r.Success? ==>
        !r.value.value.StrPart? && r.value.value.name == toks[pos].lexeme &&
        (r.value.value.ArrayPart? <==> IsSymbolAt(toks, pos + 1, "["))
  {
  }

  /** `<name> [ <expr> ]` is the array element part with that index. */
  lemma ArrayPartAt(toks: seq<Token>, pos: nat, name: string, index: Expr, q: nat)
    requires pos + 2 <= |toks| && toks[pos] == Token(Id, name) && IsSymbolAt(toks, pos + 1, "[")
    requires ExprAt(toks, pos + 2) == Success(Parsed(index, q)) && IsSymbolAt(toks, q, "]")
    ensures ValuePartAt(toks, pos) == Success(Parsed(ArrayPart(name, index), q + 1))
  {
  }

  lemma StripQuotesOfQuoted(v: string)
    requires v != [] && v[0] != '"' && v[|v| - 1] != '"'
    ensures StripQuotes(['"'] + v + ['"']) == v
  {
    var t := v + ['"'];
    assert ['"'] + v + ['"'] == ['"'] + t;
    assert (['"'] + t)[1..] == t;
    assert t[0] == v[0];
    assert StripLeading(['"'] + t) == StripLeading(t) == t;
    assert t[..|t| - 1] == v;
    assert StripTrailing(t) == StripTrailing(v) == v;
  }

  /** A double-quoted literal without quotes at its ends loses exactly its
      delimiting quotes; a triple-quoted one loses its three quotes on each
      side. */
  lemma StringValueOfQuoted(v: string)
    requires v == [] || (v[0] != '"' && v[|v| - 1] != '"')
    ensures StringValue(Token(StringLit, "\"" + v + "\"")) == v
    ensures StringValue(Token(TripleString, "\"\"\"" + v + "\"\"\"")) == v
  {
    if v == [] {
      assert "\"" + v + "\"" == ['"', '"'];
      assert StripLeading(['"', '"']) == StripLeading(['"']) == [];
    } else {
      assert "\"" + v + "\"" == ['"'] + v + ['"'];
      StripQuotesOfQuoted(v);
    }
    var w := "\"\"\"" + v + "\"\"\"";
    assert w[3..|w| - 3] == v;
  }

  /** One return part as the loop reads it at `pos`: a string token gives
      its text, a name a variable or array element part. */
  function PartAt(toks: seq<Token>, pos: nat): (r: PResult<ReturnPart>)
    requires pos < |toks| && (IsStringAt(toks, pos) || toks[pos].kind == Id)
    ensures r.Success? ==> pos < r.value.next <= |toks|
    ensures IsStringAt(toks, pos) ==> r == Success(Parsed(StrPart(StringValue(toks[pos])), pos + 1))
  {
    if IsStringAt(toks, pos) then Success(Parsed(StrPart(StringValue(toks[pos])), pos + 1))
    else ValuePartAt(toks, pos)
  }

  /** `parts` are laid out from `pos` to `end`, one after another with a `+`
      between each two. */
  predicate PartsFrom(toks: seq<Token>, pos: nat, parts: seq<ReturnPart>, end: nat)
    decreases |parts|
  {
    pos <= |toks| &&
    if parts == [] then end == pos
    else
      pos < |toks| && (IsStringAt(toks, pos) || toks[pos].kind == Id) &&
      PartAt(toks, pos).Success? && PartAt(toks, pos).value.value == parts[0] &&
      var q := PartAt(toks, pos).value.next;
      if |parts| == 1 then end == q
      else IsSymbolAt(toks, q, "+") && PartsFrom(toks, q + 1, parts[1..], end)
  }

  /** The return loop collects exactly the laid-out parts, in order, and
      stops at `;` (consumed) or at the end of the input. */
  lemma {:induction false} ReturnPartsRead(toks: seq<Token>, pos: nat, parts: seq<ReturnPart>, end: nat,
                                          acc: seq<ReturnPart>)
    requires PartsFrom(toks, pos, parts, end)
    requires end == |toks| || IsSymbolAt(toks, end, ";")
    ensures ReturnPartsAt(toks, pos, acc) == Success(Parsed(acc + parts, if end == |toks| then end else end + 1))
    decreases |parts|
  {
    if parts == [] {
      assert acc + parts == acc;
    } else {
      var q := PartAt(toks, pos).value.next;
      var more := acc + [parts[0]];
      SeqUtil.AppendHead(acc, parts);
      assert ReturnPartsAt(toks, pos, acc) == ReturnPartsAt(toks, q, more);
      if |parts| == 1 {
        assert more + [] == more;
      } else {
        assert ReturnPartsAt(toks, q, more) == ReturnPartsAt(toks, q + 1, more);
        ReturnPartsRead(toks, q + 1, parts[1..], end, more);
      }
    }
  }

  /** `return` followed by laid-out parts is the return statement of those
      parts. */
  lemma ReturnRead(toks: seq<Token>, pos: nat, parts: seq<ReturnPart>, end: nat)
    requires IsIdAt(toks, pos, "return") && PartsFrom(toks, pos + 1, parts, end)
    requires end == |toks| || IsSymbolAt(toks, end, ";")
    ensures ReturnAt(toks, pos) == Success(Parsed(Return(parts), if end == |toks| then end else end + 1))
  {
    ReturnPartsRead(toks, pos + 1, parts, end, []);
    assert [] + parts == parts;
  }

  // ---------------------------------------------------------------------
  // If statements (main.py:223-262)

  /** The header `if ( <cond> ) {` hands the condition to the branches. */
  lemma IfHeader(toks: seq<Token>, pos: nat, c: Condition, q: nat)
    requires pos + 2 <= |toks| && IsIdAt(toks, pos, "if") && IsSymbolAt(toks, pos + 1, "(")
    requires ConditionAt(toks, pos + 2) == Success(Parsed(c, q))
    requires IsSymbolAt(toks, q, ")") && IsSymbolAt(toks, q + 1, "{")
    ensures IfAt(toks, pos) == IfBranchesAt(toks, q + 2, c)
  {
    assert ExpectAt(toks, pos, Id, Some("if")) == Success(Parsed("if", pos + 1));
    assert ExpectAt(toks, pos + 1, Symbol, Some("(")) == Success(Parsed("(", pos + 2));
    assert ExpectAt(toks, q, Symbol, Some(")")) == Success(Parsed(")", q + 1));
    assert ExpectAt(toks, q + 1, Symbol, Some("{")) == Success(Parsed("{", q + 2));
  }

  lemma ThenBranchOnly(toks: seq<Token>, pos: nat, c: Condition, t: seq<Stmt>, r: nat)
    requires pos <= |toks| && IfBodyAt(toks, pos, []) == Success(Parsed(t, r)) && !IsIdAt(toks, r, "else")
    ensures IfBranchesAt(toks, pos, c) == Success(Parsed(If(c, t, []), r))
  {
  }

  lemma ThenAndElseBranches(toks: seq<Token>, pos: nat, c: Condition, t: seq<Stmt>, r: nat, e: seq<Stmt>, s: nat)
    requires pos <= |toks| && IfBodyAt(toks, pos, []) == Success(Parsed(t, r))
    requires IsIdAt(toks, r, "else") && IsSymbolAt(toks, r + 1, "{")
    requires IfBodyAt(toks, r + 2, []) == Success(Parsed(e, s))
    ensures IfBranchesAt(toks, pos, c) == Success(Parsed(If(c, t, e), s))
  {
  }

  /** `if ( <cond> ) { <then> }` without `else` after it. */
  lemma IfWithoutElse(toks: seq<Token>, pos: nat, c: Condition, q: nat, t: seq<Stmt>, r: nat)
    requires pos + 2 <= |toks| && IsIdAt(toks, pos, "if") && IsSymbolAt(toks, pos + 1, "(")
    requires ConditionAt(toks, pos + 2) == Success(Parsed(c, q))
    requires IsSymbolAt(toks, q, ")") && IsSymbolAt(toks, q + 1, "{")
    requires IfBodyAt(toks, q + 2, []) == Success(Parsed(t, r)) && !IsIdAt(toks, r, "else")
    ensures IfAt(toks, pos) == Success(Parsed(If(c, t, []), r))
  {
    IfHeader(toks, pos, c, q);
    ThenBranchOnly(toks, q + 2, c, t, r);
  }

  /** `if ( <cond> ) { <then> } else { <else> }`. */
  lemma IfWithElse(toks: seq<Token>, pos: nat, c: Condition, q: nat, t: seq<Stmt>, r: nat, e: seq<Stmt>, s: nat)
    requires pos + 2 <= |toks| && IsIdAt(toks, pos, "if") && IsSymbolAt(toks, pos + 1, "(")
    requires ConditionAt(toks, pos + 2) == Success(Parsed(c, q))
    requires IsSymbolAt(toks, q, ")") && IsSymbolAt(toks, q + 1, "{")
    requires IfBodyAt(toks, q + 2, []) == Success(Parsed(t, r))
    requires IsIdAt(toks, r, "else") && IsSymbolAt(toks, r + 1, "{")
    requires IfBodyAt(toks, r + 2, []) == Success(Parsed(e, s))
    ensures IfAt(toks, pos) == Success(Parsed(If(c, t, e), s))
  {
    IfHeader(toks, pos, c, q);
    ThenAndElseBranches(toks, q + 2, c, t, r, e, s);
  }

  // ---------------------------------------------------------------------
  // Block loops (main.py:63-77, 201-215, 231-260)

  /** Where the next statement or the closing `}` of a block starts: the
      block loops step over every token that is neither a name nor `}`. */
  function NextStart(toks: seq<Token>, pos: nat): (r: nat)
    requires pos <= |toks|
    ensures pos <= r <= |toks|
    ensures r == |toks| || toks[r].kind == Id || IsSymbolAt(toks, r, "}")
    ensures forall k :: pos <= k < r ==> toks[k].kind != Id && !IsSymbolAt(toks, k, "}")
    decreases |toks| - pos
  {
    if pos == |toks| || toks[pos].kind == Id || IsSymbolAt(toks, pos, "}") then pos
    else NextStart(toks, pos + 1)
  }

  /** The route, if and api loops skip stray tokens without effect. */
  lemma {:induction false} BlocksSkip(toks: seq<Token>, pos: nat, body: seq<Stmt>, api: Api)
    requires pos <= |toks|
    ensures RouteBodyAt(toks, pos, body) == RouteBodyAt(toks, NextStart(toks, pos), body)
    ensures IfBodyAt(toks, pos, body) == IfBodyAt(toks, NextStart(toks, pos), body)
    ensures ApiBodyAt(toks, pos, api) == ApiBodyAt(toks, NextStart(toks, pos), api)
    decreases |toks| - pos
  {
    if !(pos == |toks| || toks[pos].kind == Id || IsSymbolAt(toks, pos, "}")) {
      BlocksSkip(toks, pos + 1, body, api);
    }
  }

  /** The statement read at a name inside a route body (`inRoute`) or an if
      body: `return` starts a return statement, `if` (in a route body only)
      an if statement, any other name an assignment or call. */
  function StmtAt(toks: seq<Token>, pos: nat, inRoute: bool): (r: PResult<Stmt>)
    requires pos < |toks|
    ensures r.Success? ==> pos < r.value.next <= |toks|
    ensures r.Success? && !inRoute ==> !r.value.value.If?
  {
    if IsIdAt(toks, pos, "return") then ReturnAt(toks, pos)
    else if inRoute && IsIdAt(toks, pos, "if") then IfAt(toks, pos)
    else AssignOrCallAt(toks, pos)
  }

  /** The statements `ss` are read one after another from `pos`, stray
      tokens skipped, and the block's end is at `end`. */
  predicate StmtsFrom(toks: seq<Token>, pos: nat, ss: seq<Stmt>, end: nat, inRoute: bool)
    decreases |ss|
  {
    pos <= |toks| &&
    var s := NextStart(toks, pos);
    if ss == [] then end == s
    else
      s < |toks| && toks[s].kind == Id &&
      StmtAt(toks, s, inRoute).Success? && StmtAt(toks, s, inRoute).value.value == ss[0] &&
      StmtsFrom(toks, StmtAt(toks, s, inRoute).value.next, ss[1..], end, inRoute)
  }

  lemma RouteSkip(toks: seq<Token>, pos: nat, body: seq<Stmt>)
    requires pos <= |toks|
    ensures RouteBodyAt(toks, pos, body) == RouteBodyAt(toks, NextStart(toks, pos), body)
  {
    BlocksSkip(toks, pos, body, Api("", [], [], []));
  }

  lemma IfSkip(toks: seq<Token>, pos: nat, body: seq<Stmt>)
    requires pos <= |toks|
    ensures IfBodyAt(toks, pos, body) == IfBodyAt(toks, NextStart(toks, pos), body)
  {
    BlocksSkip(toks, pos, body, Api("", [], [], []));
  }

  /** A block ends at its `}`, which is consumed; an if body also ends at
      the end of the input. */
  lemma BodyClose(toks: seq<Token>, s: nat, acc: seq<Stmt>)
    requires s == |toks| || IsSymbolAt(toks, s, "}")
    ensures s < |toks| ==> RouteBodyAt(toks, s, acc) == Success(Parsed(acc, s + 1))
    ensures IfBodyAt(toks, s, acc) == Success(Parsed(acc, if s == |toks| then s else s + 1))
  {
  }

  /** One statement read inside a route body or an if body is appended to
      the statements collected so far. */
  lemma BodyStep(toks: seq<Token>, s: nat, acc: seq<Stmt>, inRoute: bool)
    requires s < |toks| && toks[s].kind == Id && StmtAt(toks, s, inRoute).Success?
    ensures var st := StmtAt(toks, s, inRoute).value;
      (inRoute ==> RouteBodyAt(toks, s, acc) == RouteBodyAt(toks, st.next, acc + [st.value])) &&
      (!inRoute ==> IfBodyAt(toks, s, acc) == IfBodyAt(toks, st.next, acc + [st.value]))
  {
  }

  /** An empty run of statements: the block loop stops at `end`. */
  lemma BodyEmpty(toks: seq<Token>, pos: nat, end: nat, acc: seq<Stmt>, inRoute: bool)
    requires StmtsFrom(toks, pos, [], end, inRoute)
    ensures IsSymbolAt(toks, end, "}") ==> RouteBodyAt(toks, pos, acc) == Success(Parsed(acc, end + 1))
    ensures end == |toks| || IsSymbolAt(toks, end, "}") ==>
      IfBodyAt(toks, pos, acc) == Success(Parsed(acc, if end == |toks| then end else end + 1))
  {
    RouteSkip(toks, pos, acc);
    IfSkip(toks, pos, acc);
    if end == |toks| || IsSymbolAt(toks, end, "}") {
      BodyClose(toks, end, acc);
    }
  }

  /** The first statement of a run is read after the skipped tokens and
      appended; the rest of the run starts at `next`. */
  lemma BodyFirst(toks: seq<Token>, pos: nat, ss: seq<Stmt>, end: nat, acc: seq<Stmt>, inRoute: bool)
    returns (next: nat)
    requires StmtsFrom(toks, pos, ss, end, inRoute) && ss != []
    ensures StmtsFrom(toks, next, ss[1..], end, inRoute)
    ensures inRoute ==> RouteBodyAt(toks, pos, acc) == RouteBodyAt(toks, next, acc + [ss[0]])
    ensures !inRoute ==> IfBodyAt(toks, pos, acc) == IfBodyAt(toks, next, acc + [ss[0]])
  {
    var s := NextStart(toks, pos);
    next := StmtAt(toks, s, inRoute).value.next;
    if inRoute {
      RouteSkip(toks, pos, acc);
    } else {
      IfSkip(toks, pos, acc);
    }
    BodyStep(toks, s, acc, inRoute);
  }

  /** A route body is exactly the statements read before its `}`, in
      order; the `}` is consumed. */
  lemma {:induction false} RouteBodyRead(toks: seq<Token>, pos: nat, ss: seq<Stmt>, end: nat, acc: seq<Stmt>)
    requires StmtsFrom(toks, pos, ss, end, true) && IsSymbolAt(toks, end, "}")
    ensures RouteBodyAt(toks, pos, acc) == Success(Parsed(acc + ss, end + 1))
    decreases |ss|
  {
    if ss == [] {
      BodyEmpty(toks, pos, end, acc, true);
      assert acc + ss == acc;
    } else {
      var next := BodyFirst(toks, pos, ss, end, acc, true);
      RouteBodyRead(toks, next, ss[1..], end, acc + [ss[0]]);
      SeqUtil.AppendHead(acc, ss);
    }
  }

  /** An if body is exactly the statements read before its `}` (consumed)
      or before the end of the input. */
  lemma {:induction false} IfBodyRead(toks: seq<Token>, pos: nat, ss: seq<Stmt>, end: nat, acc: seq<Stmt>)
    requires StmtsFrom(toks, pos, ss, end, false)
    requires end == |toks| || IsSymbolAt(toks, end, "}")
    ensures IfBodyAt(toks, pos, acc) == Success(Parsed(acc + ss, if end == |toks| then end else end + 1))
    decreases |ss|
  {
    if ss == [] {
      BodyEmpty(toks, pos, end, acc, false);
      assert acc + ss == acc;
    } else {
      var next := BodyFirst(toks, pos, ss, end, acc, false);
      IfBodyRead(toks, next, ss[1..], end, acc + [ss[0]]);
      SeqUtil.AppendHead(acc, ss);
    }
  }

  // ---------------------------------------------------------------------
  // Routes (main.py:186-221)

  /** `route <path> <verb> <params> { <body> }` is the route with the path
      text, the verb, the parameters and the body read in turn. */
  lemma RouteRead(toks: seq<Token>, pos: nat, params: seq<Param>, p: nat, body: seq<Stmt>, q: nat)
    requires pos + 3 <= |toks| && IsIdAt(toks, pos, "route") && IsStringAt(toks, pos + 1) && toks[pos + 2].kind == Id
    requires RouteParamsAt(toks, pos + 3) == Success(Parsed(params, p)) && IsSymbolAt(toks, p, "{")
    requires RouteBodyAt(toks, p + 1, []) == Success(Parsed(body, q))
    ensures RouteAt(toks, pos) == Success(Parsed(Route(StringValue(toks[pos + 1]), toks[pos + 2].lexeme, params, body), q))
  {
  }

  /** A route whose path is not a string token is an error. */
  lemma RoutePathRequired(toks: seq<Token>, pos: nat)
    requires IsIdAt(toks, pos, "route") && !IsStringAt(toks, pos + 1)
    ensures RouteAt(toks, pos) == Failure(ExpectedRoutePath(PeekAt(toks, pos + 1)))
  {
  }

  // ---------------------------------------------------------------------
  // Api blocks (main.py:56-78)

  /** One declaration of an api body: a global, a route or a startup
      statement. */
  datatype Member = Global(decl: VarDecl) | RouteMember(route: Route) | Init(stmt: Stmt)

  /** The member read at a name inside an api body: `var` starts a global,
      `route` a route, any other name a startup statement. */
  function MemberAt(toks: seq<Token>, pos: nat): (r: PResult<Member>)
    requires pos < |toks|
    ensures r.Success? ==> pos < r.value.next <= |toks|
    ensures r.Success? ==> (r.value.value.Global? <==> IsIdAt(toks, pos, "var"))
    ensures r.Success? ==> (r.value.value.RouteMember? <==> IsIdAt(toks, pos, "route"))
  {
    if IsIdAt(toks, pos, "var") then
      var v :- VarAt(toks, pos);
      Success(Parsed(Global(v.value), v.next))
    else if IsIdAt(toks, pos, "route") then
      var rt :- RouteAt(toks, pos);
      Success(Parsed(RouteMember(rt.value), rt.next))
    else
      var st :- AssignOrCallAt(toks, pos);
      Success(Parsed(Init(st.value), st.next))
  }

  predicate MembersFrom(toks: seq<Token>, pos: nat, ms: seq<Member>, end: nat)
    decreases |ms|
  {
    pos <= |toks| &&
    var s := NextStart(toks, pos);
    if ms == [] then end == s
    else
      s < |toks| && toks[s].kind == Id &&
      MemberAt(toks, s).Success? && MemberAt(toks, s).value.value == ms[0] &&
      MembersFrom(toks, MemberAt(toks, s).value.next, ms[1..], end)
  }

  function GlobalsOf(ms: seq<Member>): seq<VarDecl> {
    if ms == [] then [] else (if ms[0].Global? then [ms[0].decl] else []) + GlobalsOf(ms[1..])
  }

  function InitsOf(ms: seq<Member>): seq<Stmt> {
    if ms == [] then [] else (if ms[0].Init? then [ms[0].stmt] else []) + InitsOf(ms[1..])
  }

  function RoutesOf(ms: seq<Member>): seq<Route> {
    if ms == [] then [] else (if ms[0].RouteMember? then [ms[0].route] else []) + RoutesOf(ms[1..])
  }

  /** Folding one more member into an api appends it to its own list. */
  lemma AddMember(api: Api, m: Member, ms: seq<Member>)
    ensures var next :=
        if m.Global? then api.(globals := api.globals + [m.decl])
        else if m.RouteMember? then api.(routes := api.routes + [m.route])
        else api.(inits := api.inits + [m.stmt]);
      next.globals + GlobalsOf(ms) == api.globals + GlobalsOf([m] + ms) &&
      next.inits + InitsOf(ms) == api.inits + InitsOf([m] + ms) &&
      next.routes + RoutesOf(ms) == api.routes + RoutesOf([m] + ms)
  {
    assert ([m] + ms)[1..] == ms;
    assert GlobalsOf([m] + ms) == (if m.Global? then [m.decl] else []) + GlobalsOf(ms);
    assert InitsOf([m] + ms) == (if m.Init? then [m.stmt] else []) + InitsOf(ms);
    assert RoutesOf([m] + ms) == (if m.RouteMember? then [m.route] else []) + RoutesOf(ms);
    match m {
      case Global(d) =>
        SeqUtil.AppendAssoc(api.globals, [d], GlobalsOf(ms));
      case RouteMember(r) =>
        SeqUtil.AppendAssoc(api.routes, [r], RoutesOf(ms));
      case Init(st) =>
        SeqUtil.AppendAssoc(api.inits, [st], InitsOf(ms));
    }
  }

  /** An api body sorts its members into globals, startup statements and
      routes, each list in source order, and ends at its `}`. */
  lemma {:induction false} ApiBodyRead(toks: seq<Token>, pos: nat, ms: seq<Member>, end: nat, api: Api)
    requires MembersFrom(toks, pos, ms, end) && IsSymbolAt(toks, end, "}")
    ensures ApiBodyAt(toks, pos, api) ==
      Success(Parsed(Api(api.name, api.globals + GlobalsOf(ms), api.inits + InitsOf(ms), api.routes + RoutesOf(ms)),
                     end + 1))
    decreases |ms|
  {
    BlocksSkip(toks, pos, [], api);
    var s := NextStart(toks, pos);
    if ms == [] {
      assert api.globals + [] == api.globals && api.inits + [] == api.inits && api.routes + [] == api.routes;
    } else {
      var m := ms[0];
      var st := MemberAt(toks, s).value;
      var next :=
        if m.Global? then api.(globals := api.globals + [m.decl])
        else if m.RouteMember? then api.(routes := api.routes + [m.route])
        else api.(inits := api.inits + [m.stmt]);
      assert ApiBodyAt(toks, s, api) == ApiBodyAt(toks, st.next, next);
      ApiBodyRead(toks, st.next, ms[1..], end, next);
      AddMember(api, m, ms[1..]);
      assert [m] + ms[1..] == ms;
    }
  }

  /** `api <name> { <members> }` is the api of that name with its members
      sorted in source order. */
  lemma ApiRead(toks: seq<Token>, pos: nat, name: string, ms: seq<Member>, end: nat)
    requires pos + 3 <= |toks| && IsIdAt(toks, pos, "api") && toks[pos + 1] == Token(Id, name)
    requires IsSymbolAt(toks, pos + 2, "{")
    requires MembersFrom(toks, pos + 3, ms, end) && IsSymbolAt(toks, end, "}")
    ensures ApiAt(toks, pos) == Success(Parsed(Api(name, GlobalsOf(ms), InitsOf(ms), RoutesOf(ms)), end + 1))
  {
    ApiBodyRead(toks, pos + 3, ms, end, Api(name, [], [], []));
    assert [] + GlobalsOf(ms) == GlobalsOf(ms) && [] + InitsOf(ms) == InitsOf(ms) && [] + RoutesOf(ms) == RoutesOf(ms);
  }

  // ---------------------------------------------------------------------
  // The program (main.py:46-54)

  /** Where the next `api` keyword is, or the end of the input. */
  function NextApi(toks: seq<Token>, pos: nat): (r: nat)
    requires pos <= |toks|
    ensures pos <= r <= |toks|
    ensures r == |toks| || IsIdAt(toks, r, "api")
    ensures forall k :: pos <= k < r ==> !IsIdAt(toks, k, "api")
    decreases |toks| - pos
  {
    if pos == |toks| || IsIdAt(toks, pos, "api") then pos else NextApi(toks, pos + 1)
  }

  lemma {:induction false} ProgramSkips(toks: seq<Token>, pos: nat, acc: seq<Api>)
    requires pos <= |toks|
    ensures ProgramAt(toks, pos, acc) == ProgramAt(toks, NextApi(toks, pos), acc)
    decreases |toks| - pos
  {
    if !(pos == |toks| || IsIdAt(toks, pos, "api")) {
      ProgramSkips(toks, pos + 1, acc);
    }
  }

  /** The api blocks `apis` are read one after another from `pos`, with
      every token outside them other than `api` in between. */
  predicate ApisFrom(toks: seq<Token>, pos: nat, apis: seq<Api>)
    decreases |apis|
  {
    pos <= |toks| &&
    var s := NextApi(toks, pos);
    if apis == [] then s == |toks|
    else
      s < |toks| && ApiAt(toks, s).Success? && ApiAt(toks, s).value.value == apis[0] &&
      ApisFrom(toks, ApiAt(toks, s).value.next, apis[1..])
  }

  /** The program is exactly its api blocks, in source order, with every
      other token outside them skipped. */
  lemma {:induction false} ProgramRead(toks: seq<Token>, pos: nat, apis: seq<Api>, acc: seq<Api>)
    requires ApisFrom(toks, pos, apis)
    ensures ProgramAt(toks, pos, acc) == Success(acc + apis)
    decreases |apis|
  {
    ProgramSkips(toks, pos, acc);
    var s := NextApi(toks, pos);
    if apis == [] {
      assert acc + apis == acc;
    } else {
      var a := ApiAt(toks, s).value;
      assert ProgramAt(toks, s, acc) == ProgramAt(toks, a.next, acc + [apis[0]]);
      ProgramRead(toks, a.next, apis[1..], acc + [apis[0]]);
      SeqUtil.AppendHead(acc, apis);
    }
  }
}
