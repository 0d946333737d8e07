/// `parser/evaluating.rs`: the older evaluator of value expressions over
/// the tree of `parser/expression_structure.rs`, in which every layer is a
/// `Many` (first operand and `(operator, operand)` pairs) and the leaves are
/// `Unary` (optional operator and one token). Only `*` and `+` are binary
/// operations here, and only `-` is a unary one.
module Evaluating {
  import opened Errors
  import opened Tokens

  /// `Single<A>`.
  datatype Single<A> = Single(value: A)

  /// `Many<A>`: `first` and `rest`.
  datatype Many<A> = Many(first: A, rest: seq<(Token, A)>)

  /// `Unary`: an optional operator token and the operand token.
  datatype Unary = Unary(op: Option<Token>, right: Token)

  type FactorRule = Many<Unary>
  type TermRule = Many<FactorRule>
  type CompRule = Many<TermRule>
  type EqltyRule = Many<CompRule>
  type ExprRule = Single<EqltyRule>

  /// `apply`: `-` on an integer negates it; anything else is a logic
  /// error at `pos`.
  function Apply(op: Punct, right: LoxValue, pos: Position): (r: Result<LoxValue>)
    ensures r.Ok? <==> op == Minus && right.Integer?
    ensures r.Ok? ==> r.value.Integer? && r.value.i + right.i == 0
    ensures r.Err? ==> r.error.kind == LogicError && r.error.pos == Some(pos)
  {
    match op
    case Minus =>
      (match right
       case Integer(x) => Ok(Integer(-x))
       case _ => NewErr("applying the operator on this value as an unary operator is not supported.", pos, LogicError))
    case _ => NewErr("not a valid unary operator.", pos, LogicError)
  }

  /// The `match op` of `eval_fold`: integer product or boolean and for `*`,
  /// integer sum or boolean or for `+`.
  function Combine(op: Punct, acc: LoxValue, val: LoxValue, pos: Position): (r: Result<LoxValue>)
    ensures r.Ok? <==> && (op == Star || op == Plus)
                       && ((acc.Integer? && val.Integer?) || (acc.Boolean? && val.Boolean?))
    ensures r.Ok? && op == Star && acc.Integer? ==> r.value == Integer(acc.i * val.i)
    ensures r.Ok? && op == Star && acc.Boolean? ==> r.value == Boolean(acc.b && val.b)
    ensures r.Ok? && op == Plus && acc.Integer? ==> r.value == Integer(acc.i + val.i)
    ensures r.Ok? && op == Plus && acc.Boolean? ==> r.value == Boolean(acc.b || val.b)
    ensures r.Err? ==> r.error.kind == LogicError && r.error.pos == Some(pos)
  {
    if op == Star || op == Plus then
      if acc.Integer? && val.Integer? then
        Ok(Integer(if op == Star then acc.i * val.i else acc.i + val.i))
      else if acc.Boolean? && val.Boolean? then
        Ok(Boolean(if op == Star then acc.b && val.b else acc.b || val.b))
      else NewErr("How do you expect me to perform this operation on these values", pos, LogicError)
    else NewErr("Dude, this is not a valid operation!", pos, LogicError)
  }

  /// `eval_fold`: the accumulator's error first, then the operator's, then
  /// the operand's; the operation is positioned at the operator token.
  function EvalFold(acc: Result<LoxValue>, op: Token, val: Result<LoxValue>): (r: Result<LoxValue>)
    ensures acc.Err? ==> r == acc
    ensures acc.Ok? && !op.PunctToken? ==> r.Err? && r.error == op.AsPunct().error
    ensures acc.Ok? && op.PunctToken? && val.Err? ==> r == val
    ensures acc.Ok? && op.PunctToken? && val.Ok? ==> r == Combine(op.punct, acc.value, val.value, op.at)
    ensures r.Err? && acc.Ok? && op.PunctToken? && val.Ok? ==> r.error.pos == Some(op.Pos())
  {
    if acc.Err? then acc
    else
      var p := op.AsPunct();
      if p.Err? then Err(p.error)
      else if val.Err? then val
      else Combine(p.value, acc.value, val.value, op.Pos())
  }

  /// The fold of `Many::eval` over `rest`, from the accumulated result.
  function FoldRest<A>(acc: Result<LoxValue>, rest: seq<(Token, A)>, eval: A -> Result<LoxValue>)
    : (r: Result<LoxValue>)
    ensures rest == [] ==> r == acc
    ensures acc.Err? ==> r == acc
    ensures r.Ok? ==> forall i :: 0 <= i < |rest| ==> rest[i].0.PunctToken? && eval(rest[i].1).Ok?
    decreases |rest|
  {
    if rest == [] then acc
    else FoldRest(EvalFold(acc, rest[0].0, eval(rest[0].1)), rest[1..], eval)
  }

  /// `Many::eval`: the first operand, folded with each pair in turn.
  function EvalMany<A>(m: Many<A>, eval: A -> Result<LoxValue>): (r: Result<LoxValue>)
    ensures m.rest == [] ==> r == eval(m.first)
    ensures eval(m.first).Err? ==> r == eval(m.first)
    ensures r.Ok? ==> forall i :: 0 <= i < |m.rest| ==> m.rest[i].0.PunctToken? && eval(m.rest[i].1).Ok?
  {
    FoldRest(eval(m.first), m.rest, eval)
  }

  /// `Unary::eval`: the operand must be a value token; an operator is then
  /// applied at its own position.
  function EvalUnary(u: Unary): (r: Result<LoxValue>)
    ensures !u.right.ValueToken? ==> r.Err? && r.error.kind == LogicError && r.error.pos == Some(u.right.Pos())
    ensures u.op.None? ==> r == u.right.AsLoxValue()
    ensures u.op.Some? && u.right.ValueToken? && r.Err? ==> r.error.pos == Some(u.op.value.Pos())
    ensures u.op.Some? && u.right.ValueToken? && !u.op.value.PunctToken? ==> r.Err? && r.error == u.op.value.AsPunct().error
    ensures (u.op.Some? && u.right.ValueToken? && u.op.value.PunctToken?)
      ==> r == Apply(u.op.value.punct, u.right.value, u.op.value.at)
  {
    var val :- u.right.AsLoxValue();
    if u.op.Some? then
      var op :- u.op.value.AsPunct();
      Apply(op, val, u.op.value.Pos())
    else Ok(val)
  }

  /// The four layers: a layer without pairs is its first operand, and an
  /// error in the first operand is the layer's error.
  function EvalFactor(f: FactorRule): (r: Result<LoxValue>)
    ensures f.rest == [] ==> r == EvalUnary(f.first)
    ensures EvalUnary(f.first).Err? ==> r == EvalUnary(f.first)
  { EvalMany(f, EvalUnary) }

  function EvalTerm(t: TermRule): (r: Result<LoxValue>)
    ensures t.rest == [] ==> r == EvalFactor(t.first)
    ensures EvalFactor(t.first).Err? ==> r == EvalFactor(t.first)
  { EvalMany(t, EvalFactor) }

  function EvalComp(c: CompRule): (r: Result<LoxValue>)
    ensures c.rest == [] ==> r == EvalTerm(c.first)
    ensures EvalTerm(c.first).Err? ==> r == EvalTerm(c.first)
  { EvalMany(c, EvalTerm) }

  function EvalEqlty(e: EqltyRule): (r: Result<LoxValue>)
    ensures e.rest == [] ==> r == EvalComp(e.first)
    ensures EvalComp(e.first).Err? ==> r == EvalComp(e.first)
  { EvalMany(e, EvalComp) }

  /// `Single::eval`: a single token with no operators evaluates to its
  /// value.
  function EvalExpr(e: ExprRule): (r: Result<LoxValue>)
    ensures (&& e.value.rest == [] && e.value.first.rest == [] && e.value.first.first.rest == []
             && e.value.first.first.first.rest == [] && e.value.first.first.first.first.op.None?)
      ==> r == e.value.first.first.first.first.right.AsLoxValue()
  { EvalEqlty(e.value) }

  /// The fold is a left fold: the last pair is combined with the result of
  /// all the pairs before it, `((first op1 r1) op2 r2) ...`.
  lemma {:induction false} FoldRestSnoc<A>(acc: Result<LoxValue>, rest: seq<(Token, A)>, op: Token, a: A,
                                           eval: A -> Result<LoxValue>)
    ensures FoldRest(acc, rest + [(op, a)], eval) == EvalFold(FoldRest(acc, rest, eval), op, eval(a))
    decreases |rest|
  {
    if rest == [] {
      assert [] + [(op, a)] == [(op, a)];
    } else {
      assert (rest + [(op, a)])[1..] == rest[1..] + [(op, a)];
      FoldRestSnoc(EvalFold(acc, rest[0].0, eval(rest[0].1)), rest[1..], op, a, eval);
    }
  }

  /// The sum of the integer operands of `rest`.
  function SumOf<A>(rest: seq<(Token, A)>, eval: A -> Result<LoxValue>): int
    requires forall i :: 0 <= i < |rest| ==> eval(rest[i].1).Ok? && eval(rest[i].1).value.Integer?
    decreases |rest|
  {
    if rest == [] then 0 else eval(rest[0].1).value.i + SumOf(rest[1..], eval)
  }

  /// A chain of `+` over integers evaluates to their sum.
  lemma {:induction false} PlusChainSums<A>(acc: int, rest: seq<(Token, A)>, eval: A -> Result<LoxValue>)
    requires forall i :: 0 <= i < |rest| ==> rest[i].0.EqPunct(Plus)
    requires forall i :: 0 <= i < |rest| ==> eval(rest[i].1).Ok? && eval(rest[i].1).value.Integer?
    ensures FoldRest(Ok(Integer(acc)), rest, eval) == Ok(Integer(acc + SumOf(rest, eval)))
    decreases |rest|
  {
    if rest != [] {
      var x := eval(rest[0].1).value.i;
      assert EvalFold(Ok(Integer(acc)), rest[0].0, eval(rest[0].1)) == Ok(Integer(acc + x));
      PlusChainSums(acc + x, rest[1..], eval);
    }
  }

  /// `-` undoes itself on integers.
  lemma ApplyInvolution(x: int, p: Position, q: Position)
    ensures Apply(Minus, Apply(Minus, Integer(x), p).value, q) == Ok(Integer(x))
  {
  }
}
