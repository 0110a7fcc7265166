/** The `Parser` class of main.py:26-333: a token list and a cursor `pos`
    that `advance` and `expect` move forward. Each `parse_x` method is proved
    to compute exactly what the grammar function `XAt` of module Grammar
    says, started at the cursor's position on entry. */
module Parsing {
  import opened Wrappers
  import opened Decimal
  import opened Lexer
  import opened Ast
  import opened Grammar

  /** A parser method's result `r`, with the cursor at `pos` afterwards,
      agrees with the grammar's answer `spec`: the same node and the same
      end position, or the same error. */
  ghost predicate Agrees<T>(r: Result<T, ParseError>, spec: PResult<T>, pos: nat) {
    match spec
    case Success(p) => r == Success(p.value) && pos == p.next
    case Failure(e) => r == Failure(e)
  }

  class Parser {
    const tokens: seq<Token>
    var pos: nat

    ghost predicate Valid()
      reads this
    {
      pos <= |tokens|
    }

    /** `Parser(tokens)` (main.py:27-29). */
    constructor (toks: seq<Token>)
      ensures Valid() && tokens == toks && pos == 0
    {
      tokens := toks;
      pos := 0;
    }

    /** `peek()` (main.py:31-34). */
    function Peek(): (t: Option<Token>)
      reads this
      ensures t.Some? <==> pos < |tokens|
      ensures t.Some? ==> t.value == tokens[pos]
    {
      if pos < |tokens| then Some(tokens[pos]) else None
    }

    /** `advance()` (main.py:36-37). */
    method Advance()
      requires Valid() && pos < |tokens|
      modifies this
      ensures Valid() && pos == old(pos) + 1
    {
      pos := pos + 1;
    }

    /** `expect(kind, value)` (main.py:39-44). */
    method Expect(k: Kind, v: Option<string>) returns (r: Result<string, ParseError>)
      requires Valid()
      modifies this
      ensures Valid() && Agrees(r, ExpectAt(tokens, old(pos), k, v), pos)
      ensures r.Success? ==> r.value == tokens[old(pos)].lexeme && pos == old(pos) + 1
      ensures r.Failure? ==> pos == old(pos)
    {
      var tok := Peek();
      if tok.None? || tok.value.kind != k || (v.Some? && tok.value.lexeme != v.value) {
        return Failure(Expected(k, v, tok));
      }
      Advance();
      return Success(tok.value.lexeme);
    }

    /** `parse_term` (main.py:119-140). */
    method ParseTerm() returns (r: Result<Expr, ParseError>)
      requires Valid()
      modifies this
      ensures Valid() && Agrees(r, TermAt(tokens, old(pos)), pos)
      decreases |tokens| - pos, 0
    {
      var tok := Peek();
      if tok.None? {
        return Failure(TermAtEnd);
      }
      var t := tok.value;
      if t.kind == Number {
        Advance();
        if !IsNumeral(t.lexeme) {
          return Failure(BadNumber(t.lexeme));
        }
        return Success(Num(DigitsValue(t.lexeme)));
      } else if t.kind == Id {
        var name :- Expect(Id, None);
        if IsSymbolAt(tokens, pos, "[") {
          var open := Expect(Symbol, Some("["));
          var index :- ParseExpr();
          var close :- Expect(Symbol, Some("]"));
          return Success(ArrayRef(name, index));
        }
        return Success(VarRef(name));
      } else if t.kind == Symbol && t.lexeme == "(" {
        Advance();
        var inner :- ParseExpr();
        var close :- Expect(Symbol, Some(")"));
        return Success(inner);
      }
      return Failure(ExpectedTerm(t));
    }

    /** `parse_factor` (main.py:108-117). */
    method ParseFactor() returns (r: Result<Expr, ParseError>)
      requires Valid()
      modifies this
      ensures Valid() && Agrees(r, FactorAt(tokens, old(pos)), pos)
      decreases |tokens| - pos, 1
    {
      ghost var start := pos;
      var left :- ParseTerm();
      while IsMulOpAt(tokens, pos)
        invariant Valid() && start < pos
        invariant FactorTailAt(tokens, pos, left) == FactorAt(tokens, start)
        decreases |tokens| - pos
      {
        var op := OpOf(tokens[pos].lexeme);
        Advance();
        var right :- ParseTerm();
        left := BinOp(op, left, right);
      }
      return Success(left);
    }

    /** `parse_expr` (main.py:97-106). */
    method ParseExpr() returns (r: Result<Expr, ParseError>)
      requires Valid()
      modifies this
      ensures Valid() && Agrees(r, ExprAt(tokens, old(pos)), pos)
      decreases |tokens| - pos, 2
    {
      ghost var start := pos;
      var left :- ParseFactor();
      while IsAddOpAt(tokens, pos)
        invariant Valid() && start < pos
        invariant ExprTailAt(tokens, pos, left) == ExprAt(tokens, start)
        decreases |tokens| - pos
      {
        var op := OpOf(tokens[pos].lexeme);
        Advance();
        var right :- ParseFactor();
        left := BinOp(op, left, right);
      }
      return Success(left);
    }

    /** `parse_condition` (main.py:264-275). */
    method ParseCondition() returns (r: Result<Condition, ParseError>)
      requires Valid()
      modifies this
      ensures Valid() && Agrees(r, ConditionAt(tokens, old(pos)), pos)
    {
      var left :- ParseTerm();
      if IsCmpAt(tokens, pos) {
        var sym :- Expect(Symbol, None);
        var op := if sym == ">" then Greater else if sym == "<" then Less else Eq;
        if op == Eq && IsSymbolAt(tokens, pos, "=") {
          Advance();
          op := EqEq;
        }
        var right :- ParseTerm();
        return Success(Compare(left, op, right));
      }
      return Success(Bare(left));
    }

    /** `parse_assign_or_call` (main.py:277-300). */
    method ParseAssignOrCall() returns (r: Result<Stmt, ParseError>)
      requires Valid()
      modifies this
      ensures Valid() && Agrees(r, AssignOrCallAt(tokens, old(pos)), pos)
    {
      var name :- Expect(Id, None);
      var tok := Peek();
      if tok.None? {
        return Failure(UnexpectedEnd);
      }
      if IsSymbolAt(tokens, pos, ".") {
        Advance();
        var func :- Expect(Id, None);
        var open :- Expect(Symbol, Some("("));
        var arg :- ParseExpr();
        var close :- Expect(Symbol, Some(")"));
        var semi :- Expect(Symbol, Some(";"));
        return Success(Call(name, func, arg));
      } else if IsSymbolAt(tokens, pos, "=") {
        Advance();
        var e :- ParseExpr();
        var semi :- Expect(Symbol, Some(";"));
        return Success(Assign(name, e));
      } else if IsSymbolAt(tokens, pos, ";") {
        Advance();
        return Success(NoOp);
      }
      return Failure(UnexpectedExpression(tok.value));
    }

    /** `parse_return` (main.py:302-333). */
    method ParseReturn() returns (r: Result<Stmt, ParseError>)
      requires Valid()
      modifies this
      ensures Valid() && Agrees(r, ReturnAt(tokens, old(pos)), pos)
    {
      var kw :- Expect(Id, Some("return"));
      var parts :- ParseReturnParts();
      return Success(Return(parts));
    }

    /** The loop of `parse_return` (main.py:305-332), entered after the
        keyword. */
    method ParseReturnParts() returns (r: Result<seq<ReturnPart>, ParseError>)
      requires Valid()
      modifies this
      ensures Valid() && Agrees(r, ReturnPartsAt(tokens, old(pos), []), pos)
    {
      ghost var start := pos;
      var parts: seq<ReturnPart> := [];
      while true
        invariant Valid() && start <= pos
        invariant ReturnPartsAt(tokens, pos, parts) == ReturnPartsAt(tokens, start, [])
        decreases |tokens| - pos
      {
        var tok := Peek();
        if tok.None? {
          break;
        }
        var t := tok.value;
        if t.kind == Symbol && t.lexeme == ";" {
          Advance();
          break;
        }
        if t.kind == StringLit || t.kind == TripleString {
          var val :- Expect(t.kind, None);
          parts := parts + [StrPart(StringValue(t))];
        } else if t.kind == Id {
          var part :- ParseValuePart();
          parts := parts + [part];
        } else if t.kind == Symbol && t.lexeme == "+" {
          Advance();
        } else {
          return Failure(UnexpectedInReturn(t));
        }
      }
      return Success(parts);
    }

    /** A name in a `return`, with its index when `[` follows
        (main.py:318-327). */
    method ParseValuePart() returns (r: Result<ReturnPart, ParseError>)
      requires Valid() && pos < |tokens| && tokens[pos].kind == Id
      modifies this
      ensures Valid() && Agrees(r, ValuePartAt(tokens, old(pos)), pos)
    {
      var name :- Expect(Id, None);
      if IsSymbolAt(tokens, pos, "[") {
        var open := Expect(Symbol, Some("["));
        var index :- ParseExpr();
        var close :- Expect(Symbol, Some("]"));
        return Success(ArrayPart(name, index));
      }
      return Success(VarPart(name));
    }

    /** The then- and else-loops of `parse_if` (main.py:231-243, 249-260),
        which are the same loop. */
    method ParseIfBlock() returns (r: Result<seq<Stmt>, ParseError>)
      requires Valid()
      modifies this
      ensures Valid() && Agrees(r, IfBodyAt(tokens, old(pos), []), pos)
    {
      ghost var start := pos;
      var body: seq<Stmt> := [];
      while true
        invariant Valid() && start <= pos
        invariant IfBodyAt(tokens, pos, body) == IfBodyAt(tokens, start, [])
        decreases |tokens| - pos
      {
        var tok := Peek();
        if tok.None? || IsSymbolAt(tokens, pos, "}") {
          if tok.Some? {
            Advance();
          }
          break;
        }
        if IsIdAt(tokens, pos, "return") {
          var s :- ParseReturn();
          body := body + [s];
        } else if tok.value.kind == Id {
          var s :- ParseAssignOrCall();
          body := body + [s];
        } else {
          Advance();
        }
      }
      return Success(body);
    }

    /** `parse_if` (main.py:223-262). */
    method ParseIf() returns (r: Result<Stmt, ParseError>)
      requires Valid()
      modifies this
      ensures Valid() && Agrees(r, IfAt(tokens, old(pos)), pos)
    {
      var kw :- Expect(Id, Some("if"));
      var open :- Expect(Symbol, Some("("));
      var cond :- ParseCondition();
      var close :- Expect(Symbol, Some(")"));
      var brace :- Expect(Symbol, Some("{"));
      r := ParseIfBranches(cond);
    }

    /** The part of `parse_if` after the first `{` (main.py:231-262). */
    method ParseIfBranches(cond: Condition) returns (r: Result<Stmt, ParseError>)
      requires Valid()
      modifies this
      ensures Valid() && Agrees(r, IfBranchesAt(tokens, old(pos), cond), pos)
    {
      var thenBody :- ParseIfBlock();
      var elseBody: seq<Stmt> := [];
      if IsIdAt(tokens, pos, "else") {
        Advance();
        var elseBrace :- Expect(Symbol, Some("{"));
        elseBody :- ParseIfBlock();
      }
      return Success(If(cond, thenBody, elseBody));
    }

    /** The bracketed loop of `parse_route_params` (main.py:151-163 and
        main.py:171-183, the same loop), entered after the `[`. */
    method ParseParamList() returns (r: Result<seq<Param>, ParseError>)
      requires Valid()
      modifies this
      ensures Valid() && Agrees(r, ParamListAt(tokens, old(pos), []), pos)
    {
      ghost var start := pos;
      var params: seq<Param> := [];
      while true
        invariant Valid() && start <= pos
        invariant ParamListAt(tokens, pos, params) == ParamListAt(tokens, start, [])
        decreases |tokens| - pos
      {
        if IsSymbolAt(tokens, pos, "]") {
          var close := Expect(Symbol, Some("]"));
          break;
        }
        var typ :- Expect(Id, None);
        var name :- Expect(Id, None);
        params := params + [Param(typ, name)];
        if IsSymbolAt(tokens, pos, ",") {
          Advance();
        } else if IsSymbolAt(tokens, pos, "]") {
          continue;
        } else {
          break;
        }
      }
      return Success(params);
    }

    /** `parse_route_params` (main.py:142-184). */
    method ParseRouteParams() returns (r: Result<seq<Param>, ParseError>)
      requires Valid()
      modifies this
      ensures Valid() && Agrees(r, RouteParamsAt(tokens, old(pos)), pos)
    {
      if IsIdAt(tokens, pos, "REQ_BODY") {
        var kw := Expect(Id, Some("REQ_BODY"));
        if IsSymbolAt(tokens, pos, "[") {
          var open := Expect(Symbol, Some("["));
          r := ParseParamList();
          return;
        }
        return Success(DefaultParams);
      }
      if IsSymbolAt(tokens, pos, "[") {
        var open := Expect(Symbol, Some("["));
        r := ParseParamList();
        return;
      }
      return Success([]);
    }

    /** `parse_route` (main.py:186-221). */
    method ParseRoute() returns (r: Result<Route, ParseError>)
      requires Valid()
      modifies this
      ensures Valid() && Agrees(r, RouteAt(tokens, old(pos)), pos)
    {
      var kw :- Expect(Id, Some("route"));
      var pathTok := Peek();
      if !(pathTok.Some? && (pathTok.value.kind == StringLit || pathTok.value.kind == TripleString)) {
        return Failure(ExpectedRoutePath(pathTok));
      }
      var path :- Expect(pathTok.value.kind, None);
      var verb :- Expect(Id, None);
      var params :- ParseRouteParams();
      var brace :- Expect(Symbol, Some("{"));
      var body :- ParseRouteBody();
      return Success(Route(StringValue(pathTok.value), verb, params, body));
    }

    /** The body loop of `parse_route` (main.py:201-215), entered after the
        `{`: statements up to the closing `}`, which is consumed. */
    method ParseRouteBody() returns (r: Result<seq<Stmt>, ParseError>)
      requires Valid()
      modifies this
      ensures Valid() && Agrees(r, RouteBodyAt(tokens, old(pos), []), pos)
    {
      ghost var start := pos;
      var body: seq<Stmt> := [];
      while true
        invariant Valid() && start <= pos
        invariant RouteBodyAt(tokens, pos, body) == RouteBodyAt(tokens, start, [])
        decreases |tokens| - pos
      {
        var tok := Peek();
        if tok.None? {
          return Failure(NotClosed(RouteBlock));
        }
        if IsSymbolAt(tokens, pos, "}") {
          Advance();
          break;
        }
        if IsIdAt(tokens, pos, "return") {
          var s :- ParseReturn();
          body := body + [s];
        } else if IsIdAt(tokens, pos, "if") {
          var s :- ParseIf();
          body := body + [s];
        } else if tok.value.kind == Id {
          var s :- ParseAssignOrCall();
          body := body + [s];
        } else {
          Advance();
        }
      }
      return Success(body);
    }

    /** `parse_var` (main.py:80-95). */
    method ParseVar() returns (r: Result<VarDecl, ParseError>)
      requires Valid()
      modifies this
      ensures Valid() && Agrees(r, VarAt(tokens, old(pos)), pos)
    {
      var kw :- Expect(Id, Some("var"));
      var typ :- Expect(Id, None);
      if typ == "list" {
        var subtype :- Expect(Id, None);
        var name :- Expect(Id, None);
        var semi :- Expect(Symbol, Some(";"));
        return Success(ListVar(subtype, name));
      }
      var name :- Expect(Id, None);
      var init: Option<Expr> := None;
      if IsSymbolAt(tokens, pos, "=") {
        Advance();
        var e :- ParseExpr();
        init := Some(e);
      }
      var semi :- Expect(Symbol, Some(";"));
      return Success(ScalarVar(typ, name, init));
    }

    /** `parse_api` (main.py:56-78). */
    method ParseApi() returns (r: Result<Api, ParseError>)
      requires Valid()
      modifies this
      ensures Valid() && Agrees(r, ApiAt(tokens, old(pos)), pos)
    {
      var kw :- Expect(Id, Some("api"));
      var name :- Expect(Id, None);
      var brace :- Expect(Symbol, Some("{"));
      r := ParseApiBody(name);
    }

    /** The body loop of `parse_api` (main.py:63-77), entered after the
        `{`: declarations up to the closing `}`, which is consumed. */
    method ParseApiBody(name: string) returns (r: Result<Api, ParseError>)
      requires Valid()
      modifies this
      ensures Valid() && Agrees(r, ApiBodyAt(tokens, old(pos), Api(name, [], [], [])), pos)
    {
      ghost var start := pos;
      var globals: seq<VarDecl> := [];
      var inits: seq<Stmt> := [];
      var routes: seq<Route> := [];
      while true
        invariant Valid() && start <= pos
        invariant ApiBodyAt(tokens, pos, Api(name, globals, inits, routes)) == ApiBodyAt(tokens, start, Api(name, [], [], []))
        decreases |tokens| - pos
      {
        var tok := Peek();
        if tok.None? {
          return Failure(NotClosed(ApiBlock));
        }
        if IsSymbolAt(tokens, pos, "}") {
          Advance();
          break;
        }
        if IsIdAt(tokens, pos, "var") {
          var v :- ParseVar();
          globals := globals + [v];
        } else if IsIdAt(tokens, pos, "route") {
          var rt :- ParseRoute();
          routes := routes + [rt];
        } else if tok.value.kind == Id {
          var s :- ParseAssignOrCall();
          inits := inits + [s];
        } else {
          Advance();
        }
      }
      return Success(Api(name, globals, inits, routes));
    }

    /** `parse` (main.py:46-54). */
    method Parse() returns (r: Result<seq<Api>, ParseError>)
      requires Valid()
      modifies this
      ensures Valid() && r == ProgramAt(tokens, old(pos), [])
    {
      ghost var start := pos;
      var nodes: seq<Api> := [];
      while Peek().Some?
        invariant Valid() && start <= pos
        invariant ProgramAt(tokens, pos, nodes) == ProgramAt(tokens, start, [])
        decreases |tokens| - pos
      {
        if IsIdAt(tokens, pos, "api") {
          var a :- ParseApi();
          nodes := nodes + [a];
        } else {
          Advance();
        }
      }
      return Success(nodes);
    }
  }
}
