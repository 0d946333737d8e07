/// The syntax tree the executor walks (`parser::structure` as `executing.rs`,
/// `executing_function.rs` and `locator.rs` use it). The four precedence
/// layers `Eqlty`, `Comp`, `Term` and `Factor` are each a first operand and a
/// list of (operator, operand) pairs; they share one shape here, `Chain`, and
/// `Layered` states the nesting the source's types impose.
module Structure {
  import opened Errors
  import opened Tokens

  /// `Expr`: an equality chain, or a call of the named function.
  datatype Expr = Eqlty(eqlty: Chain) | CallExpr(callee: Token, args: seq<Expr>)

  /// A precedence layer (`first` and `rest`), or the unary operand at the
  /// bottom of the layers.
  datatype Chain = Many(first: Chain, rest: seq<Link>) | Base(unary: Unary)

  /// One `(operator, operand)` pair of a layer's `rest`.
  datatype Link = Link(op: Token, operand: Chain)

  /// `Unary`: a token, a parenthesised expression or a call, each with an
  /// optional prefix operator.
  datatype Unary =
    | Final(op: Option<Token>, token: Token)
    | Recursive(op: Option<Token>, expr: Expr)
    | Call(op: Option<Token>, callee: Token, args: seq<Expr>)

  /// A function definition: its name, parameter names and body. The name
  /// of an identifier token is its string.
  datatype FunctionDefinition = FunctionDefinition(name: string, args: seq<string>, body: seq<Statement>)

  /// `Statement`.
  datatype Statement =
    | ExprStmt(expr: Expr)
    | PrintStmt(expr: Expr)
    | IfStmt(cond: Expr, body: seq<Statement>)
    | WhileLoop(cond: Expr, body: seq<Statement>)
    | LetStmt(name: string, rval: Expr)
    | DefStmt(pos: Position, def: FunctionDefinition)
    | Return(expr: Expr)

  /// `Program`.
  type Program = seq<Statement>

  /// `c` has exactly `level` layers above its unary operands, as an
  /// equality (level 4) has comparisons, terms and factors below it.
  predicate Layered(c: Chain, level: nat)
    decreases c
  {
    if level == 0 then c.Base?
    else
      && c.Many?
      && Layered(c.first, level - 1)
      && forall i :: 0 <= i < |c.rest| ==> Layered(c.rest[i].operand, level - 1)
  }
}
