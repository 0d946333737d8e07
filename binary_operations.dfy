/// `execute/operations/binary_operations.rs`: the binary operators of the
/// executor. Only `*`, `+`, `-`, `==` and `!=` are operations; integers are
/// exact here (the source's `i32` overflow panics are left out).
module BinaryOperations {
  import opened Errors
  import opened Tokens

  /// Both operands are integers.
  predicate BothInts(a: LoxValue, b: LoxValue) { a.Integer? && b.Integer? }

  /// Both operands are booleans.
  predicate BothBools(a: LoxValue, b: LoxValue) { a.Boolean? && b.Boolean? }

  /// Both operands have the same variant, the ones `==` and `!=` compare.
  predicate SameKind(a: LoxValue, b: LoxValue)
  {
    BothInts(a, b) || BothBools(a, b) || (a.String? && b.String?)
  }

  /// The logic error `cant_perform_a_on_b_and_c(what, ...)` at `pos`.
  function CantPerform<A>(what: string, pos: Position): (r: Result<A>)
    ensures r.Err? && r.error.kind == LogicError && r.error.pos == Some(pos)
  {
    NewErr("can't perform " + what, pos, LogicError)
  }

  /// `plus`: integer sum, boolean or.
  function Plus(acc: LoxValue, val: LoxValue, pos: Position): (r: Result<LoxValue>)
    ensures r.Ok? <==> BothInts(acc, val) || BothBools(acc, val)
    ensures r.Ok? && acc.Integer? ==> r.value == Integer(acc.i + val.i)
    ensures r.Ok? && acc.Boolean? ==> r.value == Boolean(acc.b || val.b)
    ensures r.Err? ==> r.error.kind == LogicError && r.error.pos == Some(pos)
  {
    if BothInts(acc, val) then Ok(Integer(acc.i + val.i))
    else if BothBools(acc, val) then Ok(Boolean(acc.b || val.b))
    else CantPerform("plus", pos)
  }

  /// `star`: integer product, boolean and.
  function Star(acc: LoxValue, val: LoxValue, pos: Position): (r: Result<LoxValue>)
    ensures r.Ok? <==> BothInts(acc, val) || BothBools(acc, val)
    ensures r.Ok? && acc.Integer? ==> r.value == Integer(acc.i * val.i)
    ensures r.Ok? && acc.Boolean? ==> r.value == Boolean(acc.b && val.b)
    ensures r.Err? ==> r.error.kind == LogicError && r.error.pos == Some(pos)
  {
    if BothInts(acc, val) then Ok(Integer(acc.i * val.i))
    else if BothBools(acc, val) then Ok(Boolean(acc.b && val.b))
    else CantPerform("star", pos)
  }

  /// `minus`: integer difference; on booleans, `acc` and not `val`.
  function Minus(acc: LoxValue, val: LoxValue, pos: Position): (r: Result<LoxValue>)
    ensures r.Ok? <==> BothInts(acc, val) || BothBools(acc, val)
    ensures r.Ok? && acc.Integer? ==> r.value == Integer(acc.i - val.i)
    ensures r.Ok? && acc.Boolean? ==> r.value == Boolean(acc.b && !val.b)
    ensures r.Err? ==> r.error.kind == LogicError && r.error.pos == Some(pos)
  {
    if BothInts(acc, val) then Ok(Integer(acc.i - val.i))
    else if BothBools(acc, val) then Ok(Boolean(acc.b && !val.b))
    else CantPerform("minus", pos)
  }

  /// `eq`: whether two values of the same variant are equal.
  function Eq(acc: LoxValue, val: LoxValue, pos: Position): (r: Result<LoxValue>)
    ensures r.Ok? <==> SameKind(acc, val)
    ensures r.Ok? ==> r.value == Boolean(acc == val)
    ensures r.Err? ==> r.error.kind == LogicError && r.error.pos == Some(pos)
  {
    if BothInts(acc, val) then Ok(Boolean(acc.i == val.i))
    else if BothBools(acc, val) then Ok(Boolean(acc.b == val.b))
    else if acc.String? && val.String? then Ok(Boolean(acc.s == val.s))
    else CantPerform("equality check", pos)
  }

  /// `neq`: whether two values of the same variant differ.
  function Neq(acc: LoxValue, val: LoxValue, pos: Position): (r: Result<LoxValue>)
    ensures r.Ok? <==> SameKind(acc, val)
    ensures r.Ok? ==> r.value == Boolean(acc != val)
    ensures r.Err? ==> r.error.kind == LogicError && r.error.pos == Some(pos)
  {
    if BothInts(acc, val) then Ok(Boolean(acc.i != val.i))
    else if BothBools(acc, val) then Ok(Boolean(acc.b != val.b))
    else if acc.String? && val.String? then Ok(Boolean(acc.s != val.s))
    else CantPerform("inequality check", pos)
  }

  /// The punctuation `handle` dispatches on.
  predicate IsBinaryOp(p: Punct)
  {
    p == Punct.Star || p == Punct.Plus || p == Punct.Minus || p == EqualEqual || p == BangEqual
  }

  /// `handle`: the operator token must be punctuation, and one of the five
  /// operations; every operand error is positioned at `pos`.
  function Handle(op: Token, acc: LoxValue, val: LoxValue, pos: Position): (r: Result<LoxValue>)
    ensures !op.PunctToken? ==> r.Err? && r.error == op.AsPunct().error
    ensures op.PunctToken? && !IsBinaryOp(op.punct) ==> r.Err? && r.error.kind == LogicError && r.error.pos == Some(pos)
    ensures op.PunctToken? && r.Err? ==> r.error.kind == LogicError && r.error.pos == Some(pos)
    ensures op.PunctToken? && op.punct == Punct.Star ==> r == Star(acc, val, pos)
    ensures op.PunctToken? && op.punct == Punct.Plus ==> r == Plus(acc, val, pos)
    ensures op.PunctToken? && op.punct == Punct.Minus ==> r == Minus(acc, val, pos)
    ensures op.PunctToken? && op.punct == EqualEqual ==> r == Eq(acc, val, pos)
    ensures op.PunctToken? && op.punct == BangEqual ==> r == Neq(acc, val, pos)
  {
    var p :- op.AsPunct();
    match p
    case Star => Star(acc, val, pos)
    case Plus => Plus(acc, val, pos)
    case Minus => Minus(acc, val, pos)
    case EqualEqual => Eq(acc, val, pos)
    case BangEqual => Neq(acc, val, pos)
    case _ => NewErr("is not a valid lox operation", pos, LogicError)
  }

  /// `plus` and `star` give the same result either way round.
  lemma PlusStarCommute(a: LoxValue, b: LoxValue, pos: Position)
    ensures Plus(a, b, pos) == Plus(b, a, pos)
    ensures Star(a, b, pos) == Star(b, a, pos)
  {
  }

  /// `!=` succeeds exactly when `==` does, with the opposite answer.
  lemma NeqIsNotEq(a: LoxValue, b: LoxValue, pos: Position)
    ensures Neq(a, b, pos).Ok? <==> Eq(a, b, pos).Ok?
    ensures Eq(a, b, pos).Ok? ==> Neq(a, b, pos).value.b == !Eq(a, b, pos).value.b
  {
  }

  /// On integers, `-` is `+` of the negated operand.
  lemma MinusIsPlusOfNegation(x: int, y: int, pos: Position)
    ensures Minus(Integer(x), Integer(y), pos) == Plus(Integer(x), Integer(-y), pos)
  {
  }
}
