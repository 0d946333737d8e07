/// `locator.rs`: the position of an expression's first token, found by
/// descending through the first operand of each layer.
module Locator {
  import opened Errors
  import opened Tokens
  import opened Structure

  /// The expressions `locate` handles without panicking: the descent
  /// through first operands and bracketed expressions never meets a call
  /// at the top of an expression.
  predicate Locatable(e: Expr)
    decreases e, 2
  {
    e.Eqlty? && LocatableChain(e.eqlty)
  }

  predicate LocatableChain(c: Chain)
    decreases c, 1
  {
    match c
    case Many(first, _) => LocatableChain(first)
    case Base(u) => LocatableUnary(u)
  }

  predicate LocatableUnary(u: Unary)
    decreases u, 0
  {
    u.Recursive? && u.op.None? ==> Locatable(u.expr)
  }

  /// `locate`: the position of the expression's first token in source
  /// order.
  function Locate(e: Expr): (p: Position)
    requires Locatable(e)
    ensures p == ExprTokens(e)[0].Pos()
    decreases e, 2
  {
    LocateChain(e.eqlty)
  }

  /// The `Eqlty`, `Comp`, `Term` and `Factor` visitors: the first operand
  /// only.
  function LocateChain(c: Chain): (p: Position)
    requires LocatableChain(c)
    ensures p == ChainTokens(c)[0].Pos()
    decreases c, 1
  {
    match c
    case Many(first, _) => LocateChain(first)
    case Base(u) => LocateUnary(u)
  }

  /// The `Unary` visitor: the prefix operator if there is one, otherwise
  /// the token, the bracketed expression or the callee.
  function LocateUnary(u: Unary): (p: Position)
    requires LocatableUnary(u)
    ensures u.op.Some? ==> p == u.op.value.Pos()
    ensures p == UnaryTokens(u)[0].Pos()
    decreases u, 0
  {
    match u
    case Final(None, token) => token.Pos()
    case Final(Some(op), _) => op.Pos()
    case Recursive(None, expr) => Locate(expr)
    case Recursive(Some(op), _) => op.Pos()
    case Call(Some(op), _, _) => op.Pos()
    case Call(None, callee, _) => callee.Pos()
  }

  /// The tokens an expression holds, in source order (brackets and commas
  /// are not stored in the tree).
  function ExprTokens(e: Expr): (ts: seq<Token>)
    ensures |ts| >= 1
    decreases e, 2
  {
    match e
    case Eqlty(c) => ChainTokens(c)
    case CallExpr(callee, args) => [callee] + ArgsTokens(e, 0)
  }

  function ChainTokens(c: Chain): (ts: seq<Token>)
    ensures |ts| >= 1
    decreases c, 1
  {
    match c
    case Many(first, _) => ChainTokens(first) + LinksTokens(c, 0)
    case Base(u) => UnaryTokens(u)
  }

  /// The tokens of `c.rest[i..]`.
  function LinksTokens(c: Chain, i: nat): seq<Token>
    requires c.Many? && i <= |c.rest|
    decreases c, 0, |c.rest| - i
  {
    if i == |c.rest| then []
    else
      assert c.rest[i] in c.rest;
      [c.rest[i].op] + ChainTokens(c.rest[i].operand) + LinksTokens(c, i + 1)
  }

  function UnaryTokens(u: Unary): (ts: seq<Token>)
    ensures |ts| >= 1
    decreases u, 1
  {
    var prefix := if u.op.Some? then [u.op.value] else [];
    match u
    case Final(_, token) => prefix + [token]
    case Recursive(_, expr) => prefix + ExprTokens(expr)
    case Call(_, callee, _) => prefix + [callee] + UnaryArgsTokens(u, 0)
  }

  /// The tokens of the arguments `e.args[i..]` of a call expression.
  function ArgsTokens(e: Expr, i: nat): seq<Token>
    requires e.CallExpr? && i <= |e.args|
    decreases e, 0, |e.args| - i
  {
    if i == |e.args| then []
    else
      assert e.args[i] in e.args;
      ExprTokens(e.args[i]) + ArgsTokens(e, i + 1)
  }

  /// The tokens of the arguments `u.args[i..]` of a unary call.
  function UnaryArgsTokens(u: Unary, i: nat): seq<Token>
    requires u.Call? && i <= |u.args|
    decreases u, 0, |u.args| - i
  {
    if i == |u.args| then []
    else
      assert u.args[i] in u.args;
      ExprTokens(u.args[i]) + UnaryArgsTokens(u, i + 1)
  }
}
