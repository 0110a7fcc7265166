/** The pipeline `main` runs on a source text (main.py:650-661): tokenize,
    parse, refuse a program without an `api` block, and generate the C
    program. Reading the file, writing `output.c` and the `--run` option
    are not part of this model. */
module Compiler {
  import opened Wrappers
  import opened Lexer
  import opened Ast
  import opened Grammar
  import opened Parsing
  import opened Emit
  import GrammarProps

  datatype CompileError =
      /** The parser raised an error. */
    | Syntax(cause: ParseError)
      /** The program holds no `api` block (main.py:654-656). */
    | NoApiFound
      /** An `if` condition is a bare term that is not an arithmetic
          operation: `condition_to_c` finds no `left` key in it. */
    | BadCondition

  /** The C program for a source text, or why there is none. */
  function Compile(src: string, sc: Scaffold): (r: Result<string, CompileError>)
    ensures r.Success? <==>
      ProgramAt(Tokens(src), 0, []).Success? && ProgramAt(Tokens(src), 0, []).value != [] &&
      ApisEmittable(ProgramAt(Tokens(src), 0, []).value)
    ensures r.Success? ==> r.value == GenCCode(ProgramAt(Tokens(src), 0, []).value, sc)
    ensures ProgramAt(Tokens(src), 0, []).Failure? ==> r == Failure(Syntax(ProgramAt(Tokens(src), 0, []).error))
  {
    match ProgramAt(Tokens(src), 0, [])
    case Failure(e) => Failure(Syntax(e))
    case Success(apis) =>
      if apis == [] then Failure(NoApiFound)
      else if !ApisEmittable(apis) then Failure(BadCondition)
      else Success(GenCCode(apis, sc))
  }

  /** The same pipeline run with the lexer loop and the `Parser` object. */
  method CompileSource(src: string, sc: Scaffold) returns (r: Result<string, CompileError>)
    ensures r == Compile(src, sc)
  {
    var toks := Tokenize(src);
    var p := new Parser(toks);
    var parsed := p.Parse();
    match parsed
    case Failure(e) =>
      return Failure(Syntax(e));
    case Success(apis) =>
      if apis == [] {
        return Failure(NoApiFound);
      } else if !ApisEmittable(apis) {
        return Failure(BadCondition);
      }
      return Success(GenCCode(apis, sc));
  }

  /** A source text with no `api` identifier compiles to nothing: the
      parser skips every token and the program is refused. */
  lemma CompileWithoutApi(src: string, sc: Scaffold)
    requires forall t :: t in Tokens(src) ==> !(t.kind == Id && t.lexeme == "api")
    ensures Compile(src, sc) == Failure(NoApiFound)
  {
    var toks := Tokens(src);
    forall i | 0 <= i < |toks| ensures !IsIdAt(toks, i, "api") {
      assert toks[i] in toks;
    }
    GrammarProps.ProgramWithoutApi(toks, 0, []);
  }

  /** `2 + 3 * 4` parses as an addition whose right operand is the
      multiplication, and prints fully parenthesised as `(2 + (3 * 4))`. */
  lemma PrecedenceExample(toks: seq<Token>)
    requires toks == [Token(Number, "2"), Token(Symbol, "+"), Token(Number, "3"),
                      Token(Symbol, "*"), Token(Number, "4")]
    ensures ExprAt(toks, 0) == Success(Parsed(BinOp(Add, Num(2), BinOp(Mul, Num(3), Num(4))), 5))
    ensures ExprToC(BinOp(Add, Num(2), BinOp(Mul, Num(3), Num(4)))) == "(2 + (3 * 4))"
  {
    assert GrammarProps.ExprTokens(Num(2)) == [Token(Number, "2")];
    assert GrammarProps.ExprTokens(Num(3)) == [Token(Number, "3")];
    assert GrammarProps.ExprTokens(Num(4)) == [Token(Number, "4")];
    GrammarProps.Precedence(Num(2), Add, Num(3), Mul, Num(4), toks);
  }
}
