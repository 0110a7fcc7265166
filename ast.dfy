/** The syntax tree the parser of main.py:26-333 builds. Each Python dict
    node (`number`, `varref`, `arrayref`, `binop`, `compare`, `assign`,
    `call`, `noop`, `if`, `return`, `str`, `var`, `route`, `api`) becomes a
    constructor of a closed datatype. */
module Ast {
  import opened Wrappers

  /** The four arithmetic symbols of `parse_expr` and `parse_factor`. */
  datatype Op = Add | Sub | Mul | Div

  datatype Expr =
    | Num(value: nat)
    | VarRef(name: string)
    | ArrayRef(name: string, index: Expr)
    | BinOp(op: Op, left: Expr, right: Expr)

  /** The comparison symbols of `parse_condition`: `>`, `<`, a lone `=`, and
      `==` folded from two `=` tokens. */
  datatype CmpOp = Greater | Less | Eq | EqEq

  /** `parse_condition` returns a `compare` node, or the bare term when no
      comparison symbol follows it. */
  datatype Condition =
    | Compare(left: Expr, op: CmpOp, right: Expr)
    | Bare(term: Expr)

  /** The `str`, `varref` and `arrayref` parts of a `return` statement. */
  datatype ReturnPart =
    | StrPart(value: string)
    | VarPart(name: string)
    | ArrayPart(name: string, index: Expr)

  datatype Stmt =
    | Assign(name: string, expr: Expr)
    | Call(target: string, func: string, arg: Expr)
    | If(cond: Condition, thenBody: seq<Stmt>, elseBody: seq<Stmt>)
    | Return(parts: seq<ReturnPart>)
    | NoOp

  /** A route parameter `{type, name}`. */
  datatype Param = Param(typ: string, name: string)

  datatype Route = Route(path: string, verb: string, params: seq<Param>, body: seq<Stmt>)

  /** Any type name `parse_var` reads other than `list`. */
  type ScalarType = t: string | t != "list" witness "int"

  /** A `var` declaration: `var list <subtype> <name>;` or
      `var <type> <name> [= <expr>];`. */
  datatype VarDecl =
    | ListVar(subtype: string, name: string)
    | ScalarVar(vartype: ScalarType, name: string, init: Option<Expr>)

  datatype Api = Api(name: string, globals: seq<VarDecl>, inits: seq<Stmt>, routes: seq<Route>)

  function OpText(op: Op): string {
    match op
    case Add => "+"
    case Sub => "-"
    case Mul => "*"
    case Div => "/"
  }

  function CmpText(op: CmpOp): string {
    match op
    case Greater => ">"
    case Less => "<"
    case Eq => "="
    case EqEq => "=="
  }
}
