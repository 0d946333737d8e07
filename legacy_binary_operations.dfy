/// `execute/binary_operations.rs`: the older copy of the executor's binary
/// operators. It computes what the newer copy computes; its error messages
/// name the operations differently.
module LegacyBinaryOperations {
  import opened Errors
  import opened Tokens
  import BinaryOperations

  /// The text of `cant_perform_binary_on(what, a, b)` up to the operands:
  /// the operation's name in quotes (`{:?}` of a string). The renderings of
  /// the two operands that follow it are left out.
  function CantPerformText(what: string): (t: string)
    ensures |t| == |what| + 20 && t[..15] == "Can't perform \"" && t[|t| - 5..] == "\" on "
  {
    "Can't perform \"" + what + "\" on "
  }

  /// `cant_perform_binary_on(what, ...)` at `pos`.
  function CantPerformBinaryOn<A>(what: string, pos: Position): (r: Result<A>)
    ensures r.Err? && r.error.kind == LogicError && r.error.pos == Some(pos)
    ensures r.error.msg == CantPerformText(what)
  {
    NewErr(CantPerformText(what), pos, LogicError)
  }

  /// `plus`.
  function Plus(acc: LoxValue, val: LoxValue, pos: Position): (r: Result<LoxValue>)
    ensures r.Ok? <==> BinaryOperations.BothInts(acc, val) || BinaryOperations.BothBools(acc, val)
    ensures r.Ok? && acc.Integer? ==> r.value == Integer(acc.i + val.i)
    ensures r.Ok? && acc.Boolean? ==> r.value == Boolean(acc.b || val.b)
    ensures r.Err? ==> r.error.kind == LogicError && r.error.pos == Some(pos)
    ensures r.Err? ==> r.error.msg == CantPerformText("plus")
  {
    match (acc, val)
    case (Integer(x), Integer(y)) => Ok(Integer(x + y))
    case (Boolean(x), Boolean(y)) => Ok(Boolean(x || y))
    case _ => CantPerformBinaryOn("plus", pos)
  }

  /// `star`.
  function Star(acc: LoxValue, val: LoxValue, pos: Position): (r: Result<LoxValue>)
    ensures r.Ok? <==> BinaryOperations.BothInts(acc, val) || BinaryOperations.BothBools(acc, val)
    ensures r.Ok? && acc.Integer? ==> r.value == Integer(acc.i * val.i)
    ensures r.Ok? && acc.Boolean? ==> r.value == Boolean(acc.b && val.b)
    ensures r.Err? ==> r.error.kind == LogicError && r.error.pos == Some(pos)
    ensures r.Err? ==> r.error.msg == CantPerformText("mul")
  {
    match (acc, val)
    case (Integer(x), Integer(y)) => Ok(Integer(x * y))
    case (Boolean(x), Boolean(y)) => Ok(Boolean(x && y))
    case _ => CantPerformBinaryOn("mul", pos)
  }

  /// `minus`.
  function Minus(acc: LoxValue, val: LoxValue, pos: Position): (r: Result<LoxValue>)
    ensures r.Ok? <==> BinaryOperations.BothInts(acc, val) || BinaryOperations.BothBools(acc, val)
    ensures r.Ok? && acc.Integer? ==> r.value == Integer(acc.i - val.i)
    ensures r.Ok? && acc.Boolean? ==> r.value == Boolean(acc.b && !val.b)
    ensures r.Err? ==> r.error.kind == LogicError && r.error.pos == Some(pos)
    ensures r.Err? ==> r.error.msg == CantPerformText("subtraction")
  {
    match (acc, val)
    case (Integer(x), Integer(y)) => Ok(Integer(x - y))
    case (Boolean(x), Boolean(y)) => Ok(Boolean(x && !y))
    case _ => CantPerformBinaryOn("subtraction", pos)
  }

  /// `eq`.
  function Eq(acc: LoxValue, val: LoxValue, pos: Position): (r: Result<LoxValue>)
    ensures r.Ok? <==> BinaryOperations.SameKind(acc, val)
    ensures r.Ok? ==> r.value == Boolean(acc == val)
    ensures r.Err? ==> r.error.kind == LogicError && r.error.pos == Some(pos)
    ensures r.Err? ==> r.error.msg == CantPerformText("equality check")
  {
    match (acc, val)
    case (Integer(x), Integer(y)) => Ok(Boolean(x == y))
    case (Boolean(x), Boolean(y)) => Ok(Boolean(x == y))
    case (String(x), String(y)) => Ok(Boolean(x == y))
    case _ => CantPerformBinaryOn("equality check", pos)
  }

  /// `neq`.
  function Neq(acc: LoxValue, val: LoxValue, pos: Position): (r: Result<LoxValue>)
    ensures r.Ok? <==> BinaryOperations.SameKind(acc, val)
    ensures r.Ok? ==> r.value == Boolean(acc != val)
    ensures r.Err? ==> r.error.kind == LogicError && r.error.pos == Some(pos)
    ensures r.Err? ==> r.error.msg == CantPerformText("not-equality check")
  {
    match (acc, val)
    case (Integer(x), Integer(y)) => Ok(Boolean(x != y))
    case (Boolean(x), Boolean(y)) => Ok(Boolean(x != y))
    case (String(x), String(y)) => Ok(Boolean(x != y))
    case _ => CantPerformBinaryOn("not-equality check", pos)
  }

  /// `handle`.
  function Handle(op: Token, acc: LoxValue, val: LoxValue, pos: Position): (r: Result<LoxValue>)
    ensures !op.PunctToken? ==> r.Err? && r.error == op.AsPunct().error
    ensures op.PunctToken? && op.punct == Punct.Star ==> r == Star(acc, val, pos)
    ensures op.PunctToken? && op.punct == Punct.Plus ==> r == Plus(acc, val, pos)
    ensures op.PunctToken? && op.punct == Punct.Minus ==> r == Minus(acc, val, pos)
    ensures op.PunctToken? && op.punct == EqualEqual ==> r == Eq(acc, val, pos)
    ensures op.PunctToken? && op.punct == BangEqual ==> r == Neq(acc, val, pos)
    ensures (op.PunctToken? && !BinaryOperations.IsBinaryOp(op.punct))
      ==> r.Err? && r.error.kind == LogicError && r.error.pos == Some(pos)
  {
    var p :- op.AsPunct();
    match p
    case Star => Star(acc, val, pos)
    case Plus => Plus(acc, val, pos)
    case Minus => Minus(acc, val, pos)
    case EqualEqual => Eq(acc, val, pos)
    case BangEqual => Neq(acc, val, pos)
    case _ => NewErr("is not a valid lox operation", pos, LogicError)
  }

  /// The two results agree: both succeed with the same value, or both fail
  /// with the same kind at the same position.
  predicate Agree(r: Result<LoxValue>, s: Result<LoxValue>)
  {
    && r.Ok? == s.Ok?
    && (r.Ok? ==> r.value == s.value)
    && (r.Err? ==> r.error.kind == s.error.kind && r.error.pos == s.error.pos)
  }

  /// The older copy agrees with the newer on every input; only the wording
  /// of some messages differs.
  lemma AgreesWithOperations(op: Token, acc: LoxValue, val: LoxValue, pos: Position)
    ensures Agree(Handle(op, acc, val, pos), BinaryOperations.Handle(op, acc, val, pos))
  {
    if op.PunctToken? {
      match op.punct
      case Star => assert Agree(Star(acc, val, pos), BinaryOperations.Star(acc, val, pos));
      case Plus => assert Agree(Plus(acc, val, pos), BinaryOperations.Plus(acc, val, pos));
      case Minus => assert Agree(Minus(acc, val, pos), BinaryOperations.Minus(acc, val, pos));
      case EqualEqual => assert Agree(Eq(acc, val, pos), BinaryOperations.Eq(acc, val, pos));
      case BangEqual => assert Agree(Neq(acc, val, pos), BinaryOperations.Neq(acc, val, pos));
      case _ =>
    }
  }

  /// The messages do differ: a failed product is worded differently.
  lemma MessagesDiffer(pos: Position)
    ensures Handle(PunctToken(Punct.Star, pos), Integer(1), Boolean(true), pos)
      != BinaryOperations.Handle(PunctToken(Punct.Star, pos), Integer(1), Boolean(true), pos)
  {
    assert "Can't perform \"mul\" on "[0] != "can't perform star"[0];
  }
}
