/** Properties of the grammar of main.py:26-333: precedence and
    associativity, reading back printed expressions and conditions, the
    `==` folding, route parameter lists, and what happens when a block is
    never closed. */
module GrammarProps {
  import opened Wrappers
  import opened Decimal
  import opened Lexer
  import opened Ast
  import opened Grammar
  import SeqUtil

  function Sym(s: string): Token {
    Token(Symbol, s)
  }

  /** The tokens of an expression written out in full, parenthesising every
      binary operation as `expr_to_c` does. */
  function ExprTokens(e: Expr): seq<Token> {
    match e
    case Num(n) => [Token(Number, NatToString(n))]
    case VarRef(name) => [Token(Id, name)]
    case ArrayRef(name, index) => [Token(Id, name), Sym("[")] + ExprTokens(index) + [Sym("]")]
    case BinOp(op, l, r) => [Sym("(")] + ExprTokens(l) + [Sym(OpText(op))] + ExprTokens(r) + [Sym(")")]
  }

  /** The tokens of a comparison operator: `==` is two `=` tokens. */
  function CmpTokens(op: CmpOp): seq<Token> {
    if op == EqEq then [Sym("="), Sym("=")] else [Sym(CmpText(op))]
  }

  /** `ts` occurs in `toks` at position `pos`. */
  predicate At(toks: seq<Token>, pos: nat, ts: seq<Token>) {
    pos + |ts| <= |toks| && toks[pos..pos + |ts|] == ts
  }

  lemma AtSplit(toks: seq<Token>, pos: nat, a: seq<Token>, b: seq<Token>)
    requires At(toks, pos, a + b)
    ensures At(toks, pos, a) && At(toks, pos + |a|, b)
  {
    assert toks[pos..pos + |a|] == (a + b)[..|a|];
    assert toks[pos + |a|..pos + |a| + |b|] == (a + b)[|a|..];
  }

  lemma OpOfText(op: Op)
    ensures OpText(op) in ["+", "-", "*", "/"] && OpOf(OpText(op)) == op
  {
  }

  /** A term followed by a token that is no operator is a whole expression. */
  lemma ExprAtOfTerm(toks: seq<Token>, pos: nat, e: Expr, q: nat)
    requires pos <= |toks| && TermAt(toks, pos) == Success(Parsed(e, q))
    requires !IsMulOpAt(toks, q) && !IsAddOpAt(toks, q)
    ensures ExprAt(toks, pos) == Success(Parsed(e, q))
  {
    assert FactorAt(toks, pos) == Success(Parsed(e, q));
  }

  /** The number of tokens of a printed expression. */
  function Width(e: Expr): nat {
    match e
    case Num(_) => 1
    case VarRef(_) => 1
    case ArrayRef(_, index) => Width(index) + 3
    case BinOp(_, l, r) => Width(l) + Width(r) + 3
  }

  /** The tokens of `e` lie at `pos`, stated token by token. */
  predicate Laid(e: Expr, toks: seq<Token>, pos: nat) {
    pos + Width(e) <= |toks| &&
    match e
    case Num(n) => toks[pos] == Token(Number, NatToString(n))
    case VarRef(name) => toks[pos] == Token(Id, name)
    case ArrayRef(name, index) =>
      toks[pos] == Token(Id, name) && toks[pos + 1] == Sym("[") &&
      Laid(index, toks, pos + 2) && toks[pos + 2 + Width(index)] == Sym("]")
    case BinOp(op, l, r) =>
      toks[pos] == Sym("(") && Laid(l, toks, pos + 1) &&
      toks[pos + 1 + Width(l)] == Sym(OpText(op)) &&
      Laid(r, toks, pos + 2 + Width(l)) && toks[pos + 2 + Width(l) + Width(r)] == Sym(")")
  }

  /** Reading back a printed expression: the parser rebuilds exactly the
      tree that was printed, consuming exactly its tokens. A variable must
      not be followed by `[`, or it would be read as an array element. */
  lemma {:induction false} TermAtLaid(e: Expr, toks: seq<Token>, pos: nat)
    requires Laid(e, toks, pos)
    requires e.VarRef? ==> !IsSymbolAt(toks, pos + 1, "[")
    ensures TermAt(toks, pos) == Success(Parsed(e, pos + Width(e)))
    decreases e, 1
  {
    match e
    case Num(n) =>
      DigitsValueOfNatToString(n);
    case VarRef(_) =>
    case ArrayRef(_, _) =>
      TermAtLaidArray(e, toks, pos);
    case BinOp(_, _, _) =>
      TermAtLaidBinOp(e, toks, pos);
  }

  lemma {:induction false} TermAtLaidArray(e: Expr, toks: seq<Token>, pos: nat)
    requires e.ArrayRef? && Laid(e, toks, pos)
    ensures TermAt(toks, pos) == Success(Parsed(e, pos + Width(e)))
    decreases e, 0
  {
    var q := pos + 2 + Width(e.index);
    TermAtLaid(e.index, toks, pos + 2);
    ExprAtOfTerm(toks, pos + 2, e.index, q);
    TermAtArrayStep(toks, pos, e.name, e.index, q);
  }

  lemma {:induction false} TermAtLaidBinOp(e: Expr, toks: seq<Token>, pos: nat)
    requires e.BinOp? && Laid(e, toks, pos)
    ensures TermAt(toks, pos) == Success(Parsed(e, pos + Width(e)))
    decreases e, 0
  {
    var p1 := pos + 1 + Width(e.left);
    var q := p1 + 1 + Width(e.right);
    OperandsEnd(toks, p1, q, e.op);
    TermAtLaid(e.left, toks, pos + 1);
    TermAtLaid(e.right, toks, p1 + 1);
    BinOpTail(toks, pos + 1, p1, q, e.op, e.left, e.right);
    TermAtParenStep(toks, pos, e, q);
  }

  /** Neither operand of `( l op r )` is followed by `[`. */
  lemma OperandsEnd(toks: seq<Token>, p1: nat, q: nat, op: Op)
    requires p1 < |toks| && q < |toks| && toks[p1] == Sym(OpText(op)) && toks[q] == Sym(")")
    ensures !IsSymbolAt(toks, p1, "[") && !IsSymbolAt(toks, q, "[")
  {
    assert OpText(op)[0] != '[';
    assert ")"[0] != '[';
  }

  /** `name [ index ]` is read as an array element. */
  lemma TermAtArrayStep(toks: seq<Token>, pos: nat, name: string, index: Expr, q: nat)
    requires pos + 1 < |toks| && toks[pos] == Token(Id, name) && toks[pos + 1] == Sym("[")
    requires ExprAt(toks, pos + 2) == Success(Parsed(index, q))
    requires q < |toks| && toks[q] == Sym("]")
    ensures TermAt(toks, pos) == Success(Parsed(ArrayRef(name, index), q + 1))
  {
  }

  /** `( e )` is read as `e`. */
  lemma TermAtParenStep(toks: seq<Token>, pos: nat, e: Expr, q: nat)
    requires pos < |toks| && toks[pos] == Sym("(")
    requires ExprAt(toks, pos + 1) == Success(Parsed(e, q))
    requires q < |toks| && toks[q] == Sym(")")
    ensures TermAt(toks, pos) == Success(Parsed(e, q + 1))
  {
  }

  /** The operator steps of reading `( l op r )` once both operands are read. */
  lemma BinOpTail(toks: seq<Token>, p0: nat, p1: nat, q: nat, op: Op, l: Expr, r: Expr)
    requires p0 < p1 < q < |toks|
    requires toks[p1] == Sym(OpText(op)) && toks[q] == Sym(")")
    requires TermAt(toks, p0) == Success(Parsed(l, p1))
    requires TermAt(toks, p1 + 1) == Success(Parsed(r, q))
    ensures ExprAt(toks, p0) == Success(Parsed(BinOp(op, l, r), q))
  {
    OpOfText(op);
    assert FactorTailAt(toks, q, BinOp(op, l, r)) == Success(Parsed(BinOp(op, l, r), q));
    assert ExprTailAt(toks, q, BinOp(op, l, r)) == Success(Parsed(BinOp(op, l, r), q));
    if op == Mul || op == Div {
      assert FactorAt(toks, p0) == Success(Parsed(BinOp(op, l, r), q));
    } else {
      assert FactorTailAt(toks, q, r) == Success(Parsed(r, q));
      assert FactorAt(toks, p0) == Success(Parsed(l, p1));
      assert FactorAt(toks, p1 + 1) == Success(Parsed(r, q));
    }
  }

  /** The same for a whole expression, when no operator follows it. */
  lemma ExprAtLaid(e: Expr, toks: seq<Token>, pos: nat)
    requires Laid(e, toks, pos)
    requires e.VarRef? ==> !IsSymbolAt(toks, pos + 1, "[")
    requires !IsMulOpAt(toks, pos + Width(e)) && !IsAddOpAt(toks, pos + Width(e))
    ensures ExprAt(toks, pos) == Success(Parsed(e, pos + Width(e)))
  {
    TermAtLaid(e, toks, pos);
    ExprAtOfTerm(toks, pos, e, pos + Width(e));
  }

  /** Precedence and associativity on three operands: `*` and `/` bind
      tighter than `+` and `-`, and operators of one level group to the
      left, so `x o1 y o2 z` is `x o1 (y o2 z)` exactly when `o1` is
      additive and `o2` multiplicative. */
  lemma Precedence(x: Expr, o1: Op, y: Expr, o2: Op, z: Expr, toks: seq<Token>)
    requires x.Num? || x.VarRef?
    requires y.Num? || y.VarRef?
    requires z.Num? || z.VarRef?
    requires toks == ExprTokens(x) + [Sym(OpText(o1))] + ExprTokens(y) + [Sym(OpText(o2))] + ExprTokens(z)
    ensures ExprAt(toks, 0) == Success(Parsed(
      if (o1 == Add || o1 == Sub) && (o2 == Mul || o2 == Div) then BinOp(o1, x, BinOp(o2, y, z))
      else BinOp(o2, BinOp(o1, x, y), z), 5))
  {
    assert |toks| == 5;
    assert toks[0] == ExprTokens(x)[0] && toks[2] == ExprTokens(y)[0] && toks[4] == ExprTokens(z)[0];
    assert toks[1] == Sym(OpText(o1)) && toks[3] == Sym(OpText(o2));
    AtomAt(x, toks, 0);
    AtomAt(y, toks, 2);
    AtomAt(z, toks, 4);
    PrecedenceSteps(x, o1, y, o2, z, toks);
  }

  /** A number or a variable not followed by `[` is read as one term. */
  lemma AtomAt(e: Expr, toks: seq<Token>, pos: nat)
    requires e.Num? || e.VarRef?
    requires pos < |toks| && toks[pos] == ExprTokens(e)[0]
    requires !IsSymbolAt(toks, pos + 1, "[")
    ensures TermAt(toks, pos) == Success(Parsed(e, pos + 1))
  {
    if e.Num? {
      DigitsValueOfNatToString(e.value);
    }
  }

  /** The folding steps of `parse_factor` and `parse_expr` over three
      operands already read. */
  lemma PrecedenceSteps(x: Expr, o1: Op, y: Expr, o2: Op, z: Expr, toks: seq<Token>)
    requires |toks| == 5 && toks[1] == Sym(OpText(o1)) && toks[3] == Sym(OpText(o2))
    requires TermAt(toks, 0) == Success(Parsed(x, 1))
    requires TermAt(toks, 2) == Success(Parsed(y, 3))
    requires TermAt(toks, 4) == Success(Parsed(z, 5))
    ensures ExprAt(toks, 0) == Success(Parsed(
      if (o1 == Add || o1 == Sub) && (o2 == Mul || o2 == Div) then BinOp(o1, x, BinOp(o2, y, z))
      else BinOp(o2, BinOp(o1, x, y), z), 5))
  {
    OpOfText(o1);
    OpOfText(o2);
    var mul1 := o1 == Mul || o1 == Div;
    var mul2 := o2 == Mul || o2 == Div;
    if mul1 && mul2 {
      var t := BinOp(o2, BinOp(o1, x, y), z);
      assert FactorTailAt(toks, 5, t) == Success(Parsed(t, 5));
      assert FactorTailAt(toks, 3, BinOp(o1, x, y)) == Success(Parsed(t, 5));
      assert FactorTailAt(toks, 1, x) == Success(Parsed(t, 5));
    } else if mul1 {
      assert FactorTailAt(toks, 3, BinOp(o1, x, y)) == Success(Parsed(BinOp(o1, x, y), 3));
      assert FactorTailAt(toks, 1, x) == Success(Parsed(BinOp(o1, x, y), 3));
      assert FactorAt(toks, 0) == Success(Parsed(BinOp(o1, x, y), 3));
      assert FactorTailAt(toks, 5, z) == Success(Parsed(z, 5));
      assert FactorAt(toks, 4) == Success(Parsed(z, 5));
      var t := BinOp(o2, BinOp(o1, x, y), z);
      assert ExprTailAt(toks, 5, t) == Success(Parsed(t, 5));
      assert ExprTailAt(toks, 3, BinOp(o1, x, y)) == Success(Parsed(t, 5));
    } else if mul2 {
      assert FactorAt(toks, 0) == Success(Parsed(x, 1));
      assert FactorTailAt(toks, 5, BinOp(o2, y, z)) == Success(Parsed(BinOp(o2, y, z), 5));
      assert FactorAt(toks, 2) == Success(Parsed(BinOp(o2, y, z), 5));
      var t := BinOp(o1, x, BinOp(o2, y, z));
      assert ExprTailAt(toks, 5, t) == Success(Parsed(t, 5));
      assert ExprTailAt(toks, 1, x) == Success(Parsed(t, 5));
    } else {
      assert FactorAt(toks, 0) == Success(Parsed(x, 1));
      assert FactorAt(toks, 2) == Success(Parsed(y, 3));
      assert FactorAt(toks, 4) == Success(Parsed(z, 5));
      assert ExprTailAt(toks, 5, BinOp(o2, BinOp(o1, x, y), z)) == Success(Parsed(BinOp(o2, BinOp(o1, x, y), z), 5));
      assert ExprTailAt(toks, 3, BinOp(o1, x, y)) == Success(Parsed(BinOp(o2, BinOp(o1, x, y), z), 5));
    }
  }

  /** The comparison step of `parse_condition`: after the left term come
      the comparison tokens (two `=` tokens for `==`, a single `=` not
      followed by another for `=`), then the right term. */
  lemma ConditionStep(toks: seq<Token>, pos: nat, l: Expr, p: nat, op: CmpOp, r: Expr, q: nat)
    requires pos <= |toks| && p + |CmpTokens(op)| <= |toks|
    requires TermAt(toks, pos) == Success(Parsed(l, p))
    requires toks[p] == CmpTokens(op)[0]
    requires op == EqEq ==> toks[p + 1] == Sym("=")
    requires op != EqEq ==> !IsSymbolAt(toks, p + 1, "=")
    requires TermAt(toks, p + |CmpTokens(op)|) == Success(Parsed(r, q))
    ensures ConditionAt(toks, pos) == Success(Parsed(Compare(l, op, r), q))
  {
  }

  /** With no comparison symbol after it, the condition is the bare term. */
  lemma ConditionAtBare(toks: seq<Token>, pos: nat, t: Expr, q: nat)
    requires pos <= |toks| && TermAt(toks, pos) == Success(Parsed(t, q))
    requires !IsCmpAt(toks, q)
    ensures ConditionAt(toks, pos) == Success(Parsed(Bare(t), q))
  {
  }

  /** `REQ_BODY` without a list stands for the one `int newuser` parameter;
      with neither `REQ_BODY` nor `[` there are no parameters and nothing is
      consumed. */
  lemma RouteParamsDefault(toks: seq<Token>, pos: nat)
    requires pos <= |toks|
    ensures IsIdAt(toks, pos, "REQ_BODY") && !IsSymbolAt(toks, pos + 1, "[") ==>
      RouteParamsAt(toks, pos) == Success(Parsed([Param("int", "newuser")], pos + 1))
    ensures !IsIdAt(toks, pos, "REQ_BODY") && !IsSymbolAt(toks, pos, "[") ==>
      RouteParamsAt(toks, pos) == Success(Parsed([], pos))
  {
  }

  /** `REQ_BODY [int newuser]` written out in full reads as the same single
      parameter that a bare `REQ_BODY` stands for. */
  lemma ReqBodyBracketed(toks: seq<Token>, pos: nat)
    requires At(toks, pos, [Token(Id, "REQ_BODY"), Sym("["), Token(Id, "int"), Token(Id, "newuser"), Sym("]")])
    ensures RouteParamsAt(toks, pos) == Success(Parsed(DefaultParams, pos + 5))
  {
    var lead := [Token(Id, "REQ_BODY"), Sym("[")];
    var list := [Token(Id, "int"), Token(Id, "newuser"), Sym("]")];
    assert [Token(Id, "REQ_BODY"), Sym("["), Token(Id, "int"), Token(Id, "newuser"), Sym("]")] == lead + list;
    AtSplit(toks, pos, lead, list);
    AtFirst(toks, pos, lead);
    AtSecond(toks, pos, lead);
    assert ParamTokens(DefaultParams) == list;
    ParamListAtPrinted(DefaultParams, [], toks, pos + 2);
    assert [] + DefaultParams == DefaultParams;
  }

  /** The tokens of a parameter list after its `[`: `type name` pairs with
      a `,` between them, and the closing `]`. */
  function ParamTokens(ps: seq<Param>): seq<Token> {
    if ps == [] then [Sym("]")]
    else [Token(Id, ps[0].typ), Token(Id, ps[0].name)] +
         (if |ps| == 1 then [] else [Sym(",")]) + ParamTokens(ps[1..])
  }

  /** A bracketed parameter list yields its parameters in source order and
      consumes the closing `]`. */
  lemma {:induction false} ParamListAtPrinted(ps: seq<Param>, acc: seq<Param>, toks: seq<Token>, pos: nat)
    requires At(toks, pos, ParamTokens(ps))
    ensures ParamListAt(toks, pos, acc) == Success(Parsed(acc + ps, pos + |ParamTokens(ps)|))
    decreases |ps|
  {
    if ps == [] {
      AtFirst(toks, pos, ParamTokens(ps));
      assert acc + ps == acc;
    } else {
      var comma := |ps| > 1;
      var head := [Token(Id, ps[0].typ), Token(Id, ps[0].name)] + (if comma then [Sym(",")] else []);
      var tail := ParamTokens(ps[1..]);
      assert ParamTokens(ps) == head + tail;
      AtSplit(toks, pos, head, tail);
      AtFirst(toks, pos, head);
      AtSecond(toks, pos, head);
      var next := pos + |head|;
      if comma {
        assert toks[pos + 2] == Sym(",") by {
          assert toks[pos..pos + |head|][2] == head[2];
        }
      } else {
        AtFirst(toks, next, tail);
      }
      assert next == if comma then pos + 3 else pos + 2;
      assert |ParamTokens(ps)| == |head| + |tail|;
      var more := acc + [ps[0]];
      SeqUtil.AppendHead(acc, ps);
      ParamPairStep(toks, pos, acc, ps[0], comma);
      assert ParamListAt(toks, pos, acc) == ParamListAt(toks, next, more);
      ParamListAtPrinted(ps[1..], more, toks, next);
    }
  }

  lemma AtFirst(toks: seq<Token>, pos: nat, ts: seq<Token>)
    requires At(toks, pos, ts) && |ts| >= 1
    ensures toks[pos] == ts[0]
  {
    assert toks[pos..pos + |ts|][0] == ts[0];
  }

  lemma AtSecond(toks: seq<Token>, pos: nat, ts: seq<Token>)
    requires At(toks, pos, ts) && |ts| >= 2
    ensures toks[pos + 1] == ts[1]
  {
    assert toks[pos..pos + |ts|][1] == ts[1];
  }

  /** One `type name` pair of a parameter list, followed by `,` or `]`. */
  lemma ParamPairStep(toks: seq<Token>, pos: nat, acc: seq<Param>, p: Param, comma: bool)
    requires pos + 3 <= |toks|
    requires toks[pos] == Token(Id, p.typ) && toks[pos + 1] == Token(Id, p.name)
    requires toks[pos + 2] == (if comma then Sym(",") else Sym("]"))
    ensures ParamListAt(toks, pos, acc) == ParamListAt(toks, if comma then pos + 3 else pos + 2, acc + [p])
  {
  }

  /** `toks` has no `}` symbol from `pos` on. */
  predicate NoCloseFrom(toks: seq<Token>, pos: nat) {
    forall i :: pos <= i < |toks| ==> !IsSymbolAt(toks, i, "}")
  }

  /** A route body that is never closed is an error: either the "Route
      block not closed" error or one raised by a statement inside it. */
  lemma {:induction false} RouteBodyUnclosed(toks: seq<Token>, pos: nat, body: seq<Stmt>)
    requires pos <= |toks| && NoCloseFrom(toks, pos)
    ensures RouteBodyAt(toks, pos, body).Failure?
    decreases |toks| - pos
  {
    if pos < |toks| {
      assert !IsSymbolAt(toks, pos, "}");
      if IsIdAt(toks, pos, "return") {
        var s := ReturnAt(toks, pos);
        if s.Success? {
          RouteBodyUnclosed(toks, s.value.next, body + [s.value.value]);
        }
      } else if IsIdAt(toks, pos, "if") {
        var s := IfAt(toks, pos);
        if s.Success? {
          RouteBodyUnclosed(toks, s.value.next, body + [s.value.value]);
        }
      } else if toks[pos].kind == Id {
        var s := AssignOrCallAt(toks, pos);
        if s.Success? {
          RouteBodyUnclosed(toks, s.value.next, body + [s.value.value]);
        }
      } else {
        RouteBodyUnclosed(toks, pos + 1, body);
      }
    }
  }

  /** An api body that is never closed is an error as well. */
  lemma {:induction false} ApiBodyUnclosed(toks: seq<Token>, pos: nat, api: Api)
    requires pos <= |toks| && NoCloseFrom(toks, pos)
    ensures ApiBodyAt(toks, pos, api).Failure?
    decreases |toks| - pos
  {
    if pos < |toks| {
      assert !IsSymbolAt(toks, pos, "}");
      if IsIdAt(toks, pos, "var") {
        var v := VarAt(toks, pos);
        if v.Success? {
          ApiBodyUnclosed(toks, v.value.next, api.(globals := api.globals + [v.value.value]));
        }
      } else if IsIdAt(toks, pos, "route") {
        var rt := RouteAt(toks, pos);
        if rt.Success? {
          ApiBodyUnclosed(toks, rt.value.next, api.(routes := api.routes + [rt.value.value]));
        }
      } else if toks[pos].kind == Id {
        var s := AssignOrCallAt(toks, pos);
        if s.Success? {
          ApiBodyUnclosed(toks, s.value.next, api.(inits := api.inits + [s.value.value]));
        }
      } else {
        ApiBodyUnclosed(toks, pos + 1, api);
      }
    }
  }

  /** An `if` block, by contrast, simply stops at the end of input: when no
      `}` and no statement follow, it succeeds with the statements it has,
      at the end of the tokens. */
  lemma {:induction false} IfBodyUnclosed(toks: seq<Token>, pos: nat, body: seq<Stmt>)
    requires pos <= |toks| && NoCloseFrom(toks, pos)
    requires forall i :: pos <= i < |toks| ==> toks[i].kind != Id
    ensures IfBodyAt(toks, pos, body) == Success(Parsed(body, |toks|))
    decreases |toks| - pos
  {
    if pos < |toks| {
      assert !IsSymbolAt(toks, pos, "}") && toks[pos].kind != Id;
      IfBodyUnclosed(toks, pos + 1, body);
    }
  }

  /** Without an `api` identifier token there is nothing to parse: the
      result is the list collected so far, without error. */
  lemma {:induction false} ProgramWithoutApi(toks: seq<Token>, pos: nat, apis: seq<Api>)
    requires pos <= |toks|
    requires forall i :: pos <= i < |toks| ==> !IsIdAt(toks, i, "api")
    ensures ProgramAt(toks, pos, apis) == Success(apis)
    decreases |toks| - pos
  {
    if pos < |toks| {
      assert !IsIdAt(toks, pos, "api");
      ProgramWithoutApi(toks, pos + 1, apis);
    }
  }
}
