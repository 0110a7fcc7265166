/** The grammar `Parser` (main.py:26-333) accepts, as pure functions over the
    token list. `XAt(toks, pos)` is what the parser method `parse_x` computes
    when started with the cursor at `pos`: the node it builds and where the
    cursor ends, or the error it raises. The `while` loops of the parser are
    the accumulator functions `...BodyAt` and `...TailAt`. */
module Grammar {
  import opened Wrappers
  import opened Decimal
  import opened Lexer
  import opened Ast

  /** The block whose closing brace is missing. */
  datatype Block = ApiBlock | RouteBlock

  /** The exceptions the parser raises. */
  datatype ParseError =
      /** `expect` (main.py:39-44): wanted kind and value, and the token found. */
    | Expected(kind: Kind, value: Option<string>, at: Option<Token>)
      /** main.py:140: a term cannot start with this token. */
    | ExpectedTerm(found: Token)
      /** main.py:120-121 indexes `None` when input ends where a term is due. */
    | TermAtEnd
      /** `int(...)` rejects the lexeme of a NUMBER token. */
    | BadNumber(lexeme: string)
    | ExpectedRoutePath(at: Option<Token>)
    | NotClosed(block: Block)
      /** main.py:280-281: input ends right after the name of a statement. */
    | UnexpectedEnd
    | UnexpectedExpression(found: Token)
    | UnexpectedInReturn(found: Token)

  /** A node and the cursor position after it. */
  datatype Parsed<+T> = Parsed(value: T, next: nat)

  type PResult<+T> = Result<Parsed<T>, ParseError>

  /** `peek()`: the token under the cursor, `None` past the end. */
  function PeekAt(toks: seq<Token>, pos: nat): Option<Token> {
    if pos < |toks| then Some(toks[pos]) else None
  }

  predicate IsAt(toks: seq<Token>, pos: nat, k: Kind, v: string) {
    pos < |toks| && toks[pos].kind == k && toks[pos].lexeme == v
  }

  predicate IsSymbolAt(toks: seq<Token>, pos: nat, v: string) {
    IsAt(toks, pos, Symbol, v)
  }

  predicate IsIdAt(toks: seq<Token>, pos: nat, v: string) {
    IsAt(toks, pos, Id, v)
  }

  predicate IsKindAt(toks: seq<Token>, pos: nat, k: Kind) {
    pos < |toks| && toks[pos].kind == k
  }

  /** `expect(kind, value)` (main.py:39-44): succeeds exactly when a token is
      left, its kind is `k` and, if a value is given, its lexeme is that
      value; it then yields the lexeme and moves one token on. */
  function ExpectAt(toks: seq<Token>, pos: nat, k: Kind, v: Option<string>): (r: PResult<string>)
    ensures r.Success? <==> pos < |toks| && toks[pos].kind == k && (v.Some? ==> toks[pos].lexeme == v.value)
    ensures r.Success? ==> r.value == Parsed(toks[pos].lexeme, pos + 1)
    ensures r.Failure? ==> r.error == Expected(k, v, PeekAt(toks, pos))
  {
    if pos < |toks| && toks[pos].kind == k && (v.None? || toks[pos].lexeme == v.value)
    then Success(Parsed(toks[pos].lexeme, pos + 1))
    else Failure(Expected(k, v, PeekAt(toks, pos)))
  }

  /** A lexeme `int()` accepts. */
  predicate IsNumeral(s: string) {
    |s| > 0 && AllDigits(s)
  }

  function OpOf(s: string): Op
    requires s in ["+", "-", "*", "/"]
  {
    if s == "+" then Add else if s == "-" then Sub else if s == "*" then Mul else Div
  }

  predicate IsAddOpAt(toks: seq<Token>, pos: nat) {
    IsSymbolAt(toks, pos, "+") || IsSymbolAt(toks, pos, "-")
  }

  predicate IsMulOpAt(toks: seq<Token>, pos: nat) {
    IsSymbolAt(toks, pos, "*") || IsSymbolAt(toks, pos, "/")
  }

  /** `parse_term` (main.py:119-140): a number, a variable, an array element
      `name[expr]`, or a parenthesised expression. */
  function TermAt(toks: seq<Token>, pos: nat): (r: PResult<Expr>)
    requires pos <= |toks|
    ensures r.Success? ==> pos < r.value.next <= |toks|
    decreases |toks| - pos, 0
  {
    if pos == |toks| then Failure(TermAtEnd)
    else
      var tok := toks[pos];
      if tok.kind == Number then
        if IsNumeral(tok.lexeme) then Success(Parsed(Num(DigitsValue(tok.lexeme)), pos + 1))
        else Failure(BadNumber(tok.lexeme))
      else if tok.kind == Id then
        if IsSymbolAt(toks, pos + 1, "[") then
          var index :- ExprAt(toks, pos + 2);
          var close :- ExpectAt(toks, index.next, Symbol, Some("]"));
          Success(Parsed(ArrayRef(tok.lexeme, index.value), close.next))
        else
          Success(Parsed(VarRef(tok.lexeme), pos + 1))
      else if tok.kind == Symbol && tok.lexeme == "(" then
        var inner :- ExprAt(toks, pos + 1);
        var close :- ExpectAt(toks, inner.next, Symbol, Some(")"));
        Success(Parsed(inner.value, close.next))
      else
        Failure(ExpectedTerm(tok))
  }

  /** `parse_factor` (main.py:108-117): terms joined by `*` and `/`. */
  function FactorAt(toks: seq<Token>, pos: nat): (r: PResult<Expr>)
    requires pos <= |toks|
    ensures r.Success? ==> pos < r.value.next <= |toks|
    decreases |toks| - pos, 1
  {
    var first :- TermAt(toks, pos);
    FactorTailAt(toks, first.next, first.value)
  }

  /** The loop of `parse_factor`: each `*`/`/` and the term after it extend
      the tree on the left. */
  function FactorTailAt(toks: seq<Token>, pos: nat, left: Expr): (r: PResult<Expr>)
    requires pos <= |toks|
    ensures r.Success? ==> pos <= r.value.next <= |toks|
    decreases |toks| - pos, 1
  {
    if IsMulOpAt(toks, pos) then
      var right :- TermAt(toks, pos + 1);
      FactorTailAt(toks, right.next, BinOp(OpOf(toks[pos].lexeme), left, right.value))
    else
      Success(Parsed(left, pos))
  }

  /** `parse_expr` (main.py:97-106): factors joined by `+` and `-`. */
  function ExprAt(toks: seq<Token>, pos: nat): (r: PResult<Expr>)
    requires pos <= |toks|
    ensures r.Success? ==> pos < r.value.next <= |toks|
    decreases |toks| - pos, 2
  {
    var first :- FactorAt(toks, pos);
    ExprTailAt(toks, first.next, first.value)
  }

  function ExprTailAt(toks: seq<Token>, pos: nat, left: Expr): (r: PResult<Expr>)
    requires pos <= |toks|
    ensures r.Success? ==> pos <= r.value.next <= |toks|
    decreases |toks| - pos, 2
  {
    if IsAddOpAt(toks, pos) then
      var right :- FactorAt(toks, pos + 1);
      ExprTailAt(toks, right.next, BinOp(OpOf(toks[pos].lexeme), left, right.value))
    else
      Success(Parsed(left, pos))
  }

  predicate IsCmpAt(toks: seq<Token>, pos: nat) {
    IsSymbolAt(toks, pos, ">") || IsSymbolAt(toks, pos, "<") || IsSymbolAt(toks, pos, "=")
  }

  /** `parse_condition` (main.py:264-275). */
  function ConditionAt(toks: seq<Token>, pos: nat): (r: PResult<Condition>)
    requires pos <= |toks|
    ensures r.Success? ==> pos < r.value.next <= |toks|
  {
    var left :- TermAt(toks, pos);
    var p := left.next;
    if IsCmpAt(toks, p) then
      var op :=
        if toks[p].lexeme == ">" then Greater
        else if toks[p].lexeme == "<" then Less
        else if IsSymbolAt(toks, p + 1, "=") then EqEq
        else Eq;
      var right :- TermAt(toks, if op == EqEq then p + 2 else p + 1);
      Success(Parsed(Compare(left.value, op, right.value), right.next))
    else
      Success(Parsed(Bare(left.value), p))
  }

  /** `parse_assign_or_call` (main.py:277-300). */
  function AssignOrCallAt(toks: seq<Token>, pos: nat): (r: PResult<Stmt>)
    requires pos <= |toks|
    ensures r.Success? ==> pos < r.value.next <= |toks|
  {
    var name :- ExpectAt(toks, pos, Id, None);
    var p := name.next;
    if p == |toks| then
      Failure(UnexpectedEnd)
    else if IsSymbolAt(toks, p, ".") then
      var func :- ExpectAt(toks, p + 1, Id, None);
      var open :- ExpectAt(toks, func.next, Symbol, Some("("));
      var arg :- ExprAt(toks, open.next);
      var close :- ExpectAt(toks, arg.next, Symbol, Some(")"));
      var semi :- ExpectAt(toks, close.next, Symbol, Some(";"));
      Success(Parsed(Call(name.value, func.value, arg.value), semi.next))
    else if IsSymbolAt(toks, p, "=") then
      var e :- ExprAt(toks, p + 1);
      var semi :- ExpectAt(toks, e.next, Symbol, Some(";"));
      Success(Parsed(Assign(name.value, e.value), semi.next))
    else if IsSymbolAt(toks, p, ";") then
      Success(Parsed(NoOp, p + 1))
    else
      Failure(UnexpectedExpression(toks[p]))
  }

  /** Drops every leading and trailing `"`: Python's `strip('"')`. */
  function StripQuotes(s: string): (r: string)
    ensures r == [] || (r[0] != '"' && r[|r| - 1] != '"')
  {
    var lead := StripLeading(s);
    var r := StripTrailing(lead);
    assert r == lead[..|r|];
    assert r != [] ==> r[0] == lead[0];
    r
  }

  function StripLeading(s: string): (r: string)
    ensures r == [] || r[0] != '"'
  {
    if s != [] && s[0] == '"' then StripLeading(s[1..]) else s
  }

  function StripTrailing(s: string): (r: string)
    ensures r == [] || r[|r| - 1] != '"'
    ensures |r| <= |s| && r == s[..|r|]
  {
    if s != [] && s[|s| - 1] == '"' then StripTrailing(s[..|s| - 1]) else s
  }

  /** The text of a string token as a route path or return literal: the
      `[3:-3]` slice of a TRIPLE_STRING, the quote-stripped STRING. */
  function StringValue(tok: Token): (r: string)
    ensures tok.kind == TripleString && |tok.lexeme| >= 6 ==>
      |r| == |tok.lexeme| - 6 && tok.lexeme == tok.lexeme[..3] + r + tok.lexeme[|tok.lexeme| - 3..]
    ensures tok.kind != TripleString ==> r == [] || (r[0] != '"' && r[|r| - 1] != '"')
  {
    if tok.kind == TripleString then
      (if |tok.lexeme| >= 6 then tok.lexeme[3..|tok.lexeme| - 3] else "")
    else
      StripQuotes(tok.lexeme)
  }

  predicate IsStringAt(toks: seq<Token>, pos: nat) {
    IsKindAt(toks, pos, StringLit) || IsKindAt(toks, pos, TripleString)
  }

  /** `parse_return` (main.py:302-333). */
  function ReturnAt(toks: seq<Token>, pos: nat): (r: PResult<Stmt>)
    requires pos <= |toks|
    ensures r.Success? ==> pos < r.value.next <= |toks| && r.value.value.Return?
  {
    var kw :- ExpectAt(toks, pos, Id, Some("return"));
    var parts :- ReturnPartsAt(toks, kw.next, []);
    Success(Parsed(Return(parts.value), parts.next))
  }

  /** The loop of `parse_return` with the parts collected so far: it ends
      at `;` (consumed) or, without error, at the end of input; `+` tokens
      are skipped. */
  function ReturnPartsAt(toks: seq<Token>, pos: nat, parts: seq<ReturnPart>): (r: PResult<seq<ReturnPart>>)
    requires pos <= |toks|
    ensures r.Success? ==> pos <= r.value.next <= |toks|
    decreases |toks| - pos
  {
    if pos == |toks| then
      Success(Parsed(parts, pos))
    else if IsSymbolAt(toks, pos, ";") then
      Success(Parsed(parts, pos + 1))
    else if IsStringAt(toks, pos) then
      ReturnPartsAt(toks, pos + 1, parts + [StrPart(StringValue(toks[pos]))])
    else if toks[pos].kind == Id then
      var part :- ValuePartAt(toks, pos);
      ReturnPartsAt(toks, part.next, parts + [part.value])
    else if IsSymbolAt(toks, pos, "+") then
      ReturnPartsAt(toks, pos + 1, parts)
    else
      Failure(UnexpectedInReturn(toks[pos]))
  }

  /** A name in a `return`, read as an array element when `[` follows it
      and as a variable otherwise (main.py:318-327). */
  function ValuePartAt(toks: seq<Token>, pos: nat): (r: PResult<ReturnPart>)
    requires pos < |toks| && toks[pos].kind == Id
    ensures r.Success? ==> pos < r.value.next <= |toks|
  {
    if IsSymbolAt(toks, pos + 1, "[") then
      var index :- ExprAt(toks, pos + 2);
      var close :- ExpectAt(toks, index.next, Symbol, Some("]"));
      Success(Parsed(ArrayPart(toks[pos].lexeme, index.value), close.next))
    else
      Success(Parsed(VarPart(toks[pos].lexeme), pos + 1))
  }

  /** The then- and else-loops of `parse_if` (main.py:231-260): `}` ends the
      block and is consumed; the end of input ends it without error. */
  function IfBodyAt(toks: seq<Token>, pos: nat, body: seq<Stmt>): (r: PResult<seq<Stmt>>)
    requires pos <= |toks|
    ensures r.Success? ==> pos <= r.value.next <= |toks|
    decreases |toks| - pos
  {
    if pos == |toks| then
      Success(Parsed(body, pos))
    else if IsSymbolAt(toks, pos, "}") then
      Success(Parsed(body, pos + 1))
    else if IsIdAt(toks, pos, "return") then
      var s :- ReturnAt(toks, pos);
      IfBodyAt(toks, s.next, body + [s.value])
    else if toks[pos].kind == Id then
      var s :- AssignOrCallAt(toks, pos);
      IfBodyAt(toks, s.next, body + [s.value])
    else
      IfBodyAt(toks, pos + 1, body)
  }

  /** `parse_if` (main.py:223-262). */
  function IfAt(toks: seq<Token>, pos: nat): (r: PResult<Stmt>)
    requires pos <= |toks|
    ensures r.Success? ==> pos < r.value.next <= |toks| && r.value.value.If?
  {
    var kw :- ExpectAt(toks, pos, Id, Some("if"));
    var open :- ExpectAt(toks, kw.next, Symbol, Some("("));
    var cond :- ConditionAt(toks, open.next);
    var close :- ExpectAt(toks, cond.next, Symbol, Some(")"));
    var brace :- ExpectAt(toks, close.next, Symbol, Some("{"));
    IfBranchesAt(toks, brace.next, cond.value)
  }

  /** The part of `parse_if` after the first `{`: the then-block, and an
      else-block when `else` follows it. */
  function IfBranchesAt(toks: seq<Token>, pos: nat, cond: Condition): (r: PResult<Stmt>)
    requires pos <= |toks|
    ensures r.Success? ==> pos <= r.value.next <= |toks| && r.value.value.If?
  {
    var thenPart :- IfBodyAt(toks, pos, []);
    if IsIdAt(toks, thenPart.next, "else") then
      var elseBrace :- ExpectAt(toks, thenPart.next + 1, Symbol, Some("{"));
      var elsePart :- IfBodyAt(toks, elseBrace.next, []);
      Success(Parsed(If(cond, thenPart.value, elsePart.value), elsePart.next))
    else
      Success(Parsed(If(cond, thenPart.value, []), thenPart.next))
  }

  /** The parameter every `REQ_BODY` without a list stands for. */
  const DefaultParams: seq<Param> := [Param("int", "newuser")]

  /** `parse_route_params` (main.py:142-184). */
  function RouteParamsAt(toks: seq<Token>, pos: nat): (r: PResult<seq<Param>>)
    requires pos <= |toks|
    ensures r.Success? ==> pos <= r.value.next <= |toks|
  {
    if IsIdAt(toks, pos, "REQ_BODY") then
      if IsSymbolAt(toks, pos + 1, "[") then ParamListAt(toks, pos + 2, [])
      else Success(Parsed(DefaultParams, pos + 1))
    else if IsSymbolAt(toks, pos, "[") then
      ParamListAt(toks, pos + 1, [])
    else
      Success(Parsed([], pos))
  }

  /** The bracketed loop of `parse_route_params`, after the `[`: `]` ends it
      and is consumed; a pair not followed by `,` or `]` ends it with the
      cursor left on that token. */
  function ParamListAt(toks: seq<Token>, pos: nat, params: seq<Param>): (r: PResult<seq<Param>>)
    requires pos <= |toks|
    ensures r.Success? ==> pos <= r.value.next <= |toks|
    decreases |toks| - pos
  {
    if IsSymbolAt(toks, pos, "]") then
      Success(Parsed(params, pos + 1))
    else
      var typ :- ExpectAt(toks, pos, Id, None);
      var name :- ExpectAt(toks, typ.next, Id, None);
      var more := params + [Param(typ.value, name.value)];
      if IsSymbolAt(toks, name.next, ",") then ParamListAt(toks, name.next + 1, more)
      else if IsSymbolAt(toks, name.next, "]") then ParamListAt(toks, name.next, more)
      else Success(Parsed(more, name.next))
  }

  /** The body loop of `parse_route` (main.py:201-215). */
  function RouteBodyAt(toks: seq<Token>, pos: nat, body: seq<Stmt>): (r: PResult<seq<Stmt>>)
    requires pos <= |toks|
    ensures r.Success? ==> pos < r.value.next <= |toks|
    decreases |toks| - pos
  {
    if pos == |toks| then
      Failure(NotClosed(RouteBlock))
    else if IsSymbolAt(toks, pos, "}") then
      Success(Parsed(body, pos + 1))
    else if IsIdAt(toks, pos, "return") then
      var s :- ReturnAt(toks, pos);
      RouteBodyAt(toks, s.next, body + [s.value])
    else if IsIdAt(toks, pos, "if") then
      var s :- IfAt(toks, pos);
      RouteBodyAt(toks, s.next, body + [s.value])
    else if toks[pos].kind == Id then
      var s :- AssignOrCallAt(toks, pos);
      RouteBodyAt(toks, s.next, body + [s.value])
    else
      RouteBodyAt(toks, pos + 1, body)
  }

  /** `parse_route` (main.py:186-221). */
  function RouteAt(toks: seq<Token>, pos: nat): (r: PResult<Route>)
    requires pos <= |toks|
    ensures r.Success? ==> pos < r.value.next <= |toks|
  {
    var kw :- ExpectAt(toks, pos, Id, Some("route"));
    var p := kw.next;
    if IsStringAt(toks, p) then
      var verb :- ExpectAt(toks, p + 1, Id, None);
      var params :- RouteParamsAt(toks, verb.next);
      var brace :- ExpectAt(toks, params.next, Symbol, Some("{"));
      var body :- RouteBodyAt(toks, brace.next, []);
      Success(Parsed(Route(StringValue(toks[p]), verb.value, params.value, body.value), body.next))
    else
      Failure(ExpectedRoutePath(PeekAt(toks, p)))
  }

  /** `parse_var` (main.py:80-95). */
  function VarAt(toks: seq<Token>, pos: nat): (r: PResult<VarDecl>)
    requires pos <= |toks|
    ensures r.Success? ==> pos < r.value.next <= |toks|
  {
    var kw :- ExpectAt(toks, pos, Id, Some("var"));
    var typ :- ExpectAt(toks, kw.next, Id, None);
    if typ.value == "list" then
      var sub :- ExpectAt(toks, typ.next, Id, None);
      var name :- ExpectAt(toks, sub.next, Id, None);
      var semi :- ExpectAt(toks, name.next, Symbol, Some(";"));
      Success(Parsed(ListVar(sub.value, name.value), semi.next))
    else
      var name :- ExpectAt(toks, typ.next, Id, None);
      if IsSymbolAt(toks, name.next, "=") then
        var init :- ExprAt(toks, name.next + 1);
        var semi :- ExpectAt(toks, init.next, Symbol, Some(";"));
        Success(Parsed(ScalarVar(typ.value, name.value, Some(init.value)), semi.next))
      else
        var semi :- ExpectAt(toks, name.next, Symbol, Some(";"));
        Success(Parsed(ScalarVar(typ.value, name.value, None), semi.next))
  }

  /** `parse_api` (main.py:56-78). */
  function ApiAt(toks: seq<Token>, pos: nat): (r: PResult<Api>)
    requires pos <= |toks|
    ensures r.Success? ==> pos < r.value.next <= |toks|
  {
    var kw :- ExpectAt(toks, pos, Id, Some("api"));
    var name :- ExpectAt(toks, kw.next, Id, None);
    var brace :- ExpectAt(toks, name.next, Symbol, Some("{"));
    ApiBodyAt(toks, brace.next, Api(name.value, [], [], []))
  }

  /** The body loop of `parse_api` with the declarations collected so far. */
  function ApiBodyAt(toks: seq<Token>, pos: nat, api: Api): (r: PResult<Api>)
    requires pos <= |toks|
    ensures r.Success? ==> pos < r.value.next <= |toks| && r.value.value.name == api.name
    decreases |toks| - pos
  {
    if pos == |toks| then
      Failure(NotClosed(ApiBlock))
    else if IsSymbolAt(toks, pos, "}") then
      Success(Parsed(api, pos + 1))
    else if IsIdAt(toks, pos, "var") then
      var v :- VarAt(toks, pos);
      ApiBodyAt(toks, v.next, api.(globals := api.globals + [v.value]))
    else if IsIdAt(toks, pos, "route") then
      var rt :- RouteAt(toks, pos);
      ApiBodyAt(toks, rt.next, api.(routes := api.routes + [rt.value]))
    else if toks[pos].kind == Id then
      var s :- AssignOrCallAt(toks, pos);
      ApiBodyAt(toks, s.next, api.(inits := api.inits + [s.value]))
    else
      ApiBodyAt(toks, pos + 1, api)
  }

  /** `parse` (main.py:46-54): every `api` block, in order; any other token
      outside a block is skipped. */
  function ProgramAt(toks: seq<Token>, pos: nat, apis: seq<Api>): (r: Result<seq<Api>, ParseError>)
    requires pos <= |toks|
    decreases |toks| - pos
  {
    if pos == |toks| then
      Success(apis)
    else if IsIdAt(toks, pos, "api") then
      var a :- ApiAt(toks, pos);
      ProgramAt(toks, a.next, apis + [a.value])
    else
      ProgramAt(toks, pos + 1, apis)
  }
}
