/// `execute/operations/unary_operations.rs`: prefix operators on run-time
/// objects. Only `-` is one: it negates integers and inverts booleans.
module UnaryOperations {
  import opened Errors
  import opened Tokens
  import opened Definitions

  /// The objects `-` applies to.
  predicate Negatable(raw: RawLoxObject)
  {
    raw.Plain? && (raw.value.Integer? || raw.value.Boolean?)
  }

  /// `negate`: a logic error at `at` for strings and functions; rendering a
  /// class for the message panics.
  function Negate(raw: RawLoxObject, at: Position): (r: Result<RawLoxObject>)
    ensures r.Ok? <==> Negatable(raw)
    ensures r.Ok? && raw.value.Integer? ==> r.value == Plain(Integer(-raw.value.i))
    ensures r.Ok? && raw.value.Boolean? ==> r.value == Plain(Boolean(!raw.value.b))
    ensures r.Err? && !RenderPanics(raw) ==> r.error.kind == LogicError && r.error.pos == Some(at)
    ensures r.Err? && RenderPanics(raw) ==> r.error.kind == Panic
  {
    match raw
    case Plain(Boolean(b)) => Ok(Plain(Boolean(!b)))
    case Plain(Integer(x)) => Ok(Plain(Integer(-x)))
    case Class => Abort("not implemented:(")
    case _ => NewErr("Cannot negate", at, LogicError)
  }

  /// `unary_op`: the operator must be punctuation, and `-`; errors are
  /// positioned at the operator.
  function UnaryOp(op: Token, right: RawLoxObject): (r: Result<RawLoxObject>)
    ensures !op.PunctToken? ==> r.Err? && r.error == op.AsPunct().error
    ensures op.EqPunct(Punct.Minus) ==> r == Negate(right, op.Pos())
    ensures op.PunctToken? && !op.EqPunct(Punct.Minus) ==> r.Err?
    ensures op.PunctToken? && !op.EqPunct(Punct.Minus) && !RenderPanics(right)
      ==> r.error.kind == LogicError && r.error.pos == Some(op.Pos())
  {
    var pos := op.Pos();
    var p := op.AsPunct();
    if p.Err? then Err(p.error)
    else if p.value == Punct.Minus then Negate(right, pos)
    else if RenderPanics(right) then Abort("not implemented:(")
    else NewErr("applying this operator as an unary operator is not supported.", pos, LogicError)
  }

  /// Negating twice gives the object back.
  lemma NegateInvolution(raw: RawLoxObject, p: Position, q: Position)
    requires Negatable(raw)
    ensures Negate(Negate(raw, p).value, q) == Ok(raw)
  {
  }
}
