/// `execute/executing_function.rs`: running a function body. A `return`
/// statement ends the body with the value of its expression; every other
/// statement is run by the executor. A body that ends without `return`
/// answers the integer 0.
module ExecutingFunction {
  import opened Errors
  import opened Tokens
  import opened Structure
  import opened Definitions
  import opened States
  import opened Executing

  /// The `Statement` visitor: the value of a `return`, nothing for any
  /// other statement, which the executor runs.
  function FuncStmt(st: Statement, m: Machine, fuel: nat): (res: (Result<Option<LoxObj>>, Machine))
    requires |m.scopes| > 0
    ensures |res.1.scopes| >= |m.scopes|
    ensures st.Return? ==>
      var (v, s1) := EvalExpr(st.expr, m.scopes);
      && res.1 == Machine(s1, m.printed)
      && (res.0.Ok? <==> v.Ok?)
      && (res.0.Ok? ==> res.0.value == Some(v.value))
    ensures !st.Return? ==>
      var (r, m1) := ExecStmt(st, m, fuel);
      && res.1 == m1
      && (res.0.Ok? <==> r.Ok?)
      && (res.0.Ok? ==> res.0.value.None?)
  {
    if st.Return? then
      var (v, s1) := EvalExpr(st.expr, m.scopes);
      (if v.Err? then Err(v.error) else Ok(Some(v.value)), Machine(s1, m.printed))
    else
      var (r, m1) := ExecStmt(st, m, fuel);
      (if r.Err? then Err(r.error) else Ok(None), m1)
  }

  /// The loop of the `Program` visitor: the statements in order, up to the
  /// first error or the first returned value; `None` when the body ran to
  /// its end.
  function FuncSteps(p: seq<Statement>, m: Machine, fuel: nat): (res: (Result<Option<LoxObj>>, Machine))
    requires |m.scopes| > 0
    ensures |res.1.scopes| >= |m.scopes|
    decreases p
  {
    if p == [] then (Ok(None), m)
    else
      var (r, m1) := FuncStmt(p[0], m, fuel);
      if r.Err? || r.value.Some? then (r, m1) else FuncSteps(p[1..], m1, fuel)
  }

  /// The `Program` visitor: the returned value, or 0 after the last
  /// statement.
  function FuncRun(p: seq<Statement>, m: Machine, fuel: nat): (res: (Result<LoxObj>, Machine))
    requires |m.scopes| > 0
    ensures res.1 == FuncSteps(p, m, fuel).1
    ensures res.0.Ok? <==> FuncSteps(p, m, fuel).0.Ok?
    ensures res.0.Ok? && FuncSteps(p, m, fuel).0.value.None? ==> res.0.value == FromValue(Integer(0))
    ensures res.0.Ok? && FuncSteps(p, m, fuel).0.value.Some? ==> res.0.value == FuncSteps(p, m, fuel).0.value.value
  {
    var (r, m1) := FuncSteps(p, m, fuel);
    if r.Err? then (Err(r.error), m1)
    else if r.value.Some? then (Ok(r.value.value), m1)
    else (Ok(FromValue(Integer(0))), m1)
  }

  /// No statement of `p` is a `return`.
  predicate NoReturn(p: seq<Statement>)
  {
    forall i :: 0 <= i < |p| ==> !p[i].Return?
  }

  /// Without `return`, a body runs exactly as the executor runs it as a
  /// program.
  lemma {:induction false} NoReturnRunsAsProgram(p: seq<Statement>, m: Machine, fuel: nat)
    requires |m.scopes| > 0 && NoReturn(p)
    ensures var (r, m1) := ExecProgram(p, m, fuel);
      FuncSteps(p, m, fuel) == (if r.Err? then Err(r.error) else Ok(None), m1)
    decreases p
  {
    if p != [] {
      var (r, m1) := ExecStmt(p[0], m, fuel);
      if r.Ok? {
        NoReturnRunsAsProgram(p[1..], m1, fuel);
      }
    }
  }

  /// Running `p + q` is running `p`, and `q` after it only when `p` neither
  /// failed nor returned.
  lemma {:induction false} FuncStepsAppend(p: seq<Statement>, q: seq<Statement>, m: Machine, fuel: nat)
    requires |m.scopes| > 0
    ensures FuncSteps(p + q, m, fuel)
         == (var (r, m1) := FuncSteps(p, m, fuel);
             if r.Err? || r.value.Some? then (r, m1) else FuncSteps(q, m1, fuel))
    decreases p
  {
    if p == [] {
      assert p + q == q;
    } else {
      assert (p + q)[0] == p[0];
      assert (p + q)[1..] == p[1..] + q;
      var (r, m1) := FuncStmt(p[0], m, fuel);
      if r.Ok? && r.value.None? {
        FuncStepsAppend(p[1..], q, m1, fuel);
      }
    }
  }

  /// The first `return` decides the result: the statements before it run
  /// as a program, its expression is the answer, and nothing after it runs.
  lemma FirstReturnDecides(pre: seq<Statement>, e: Expr, post: seq<Statement>, m: Machine, fuel: nat)
    requires |m.scopes| > 0 && NoReturn(pre) && ExecProgram(pre, m, fuel).0.Ok?
    ensures var m1 := ExecProgram(pre, m, fuel).1;
      var (v, s2) := EvalExpr(e, m1.scopes);
      FuncRun(pre + [Return(e)] + post, m, fuel) == (v, Machine(s2, m1.printed))
  {
    NoReturnRunsAsProgram(pre, m, fuel);
    FuncStepsAppend(pre, [Return(e)] + post, m, fuel);
    assert pre + [Return(e)] + post == pre + ([Return(e)] + post);
  }

  /// `FuncExecutor`: runs a body on an executor it shares with its caller.
  class FuncExecutor {
    const executor: Executor

    /// `FuncExecutor::from`.
    constructor From(ex: Executor)
      ensures executor == ex
    {
      executor := ex;
    }

    /// The `Statement` visitor.
    method VisitStatement(st: Statement, fuel: nat) returns (r: Result<Option<LoxObj>>)
      requires |executor.state.scopes| > 0
      modifies executor, executor.state
      ensures (r, executor.Mach()) == FuncStmt(st, old(executor.Mach()), fuel)
    {
      if st.Return? {
        var v := executor.VisitExpr(st.expr);
        if v.Err? {
          return Err(v.error);
        }
        return Ok(Some(v.value));
      }
      var s := executor.Exec(st, fuel);
      if s.Err? {
        return Err(s.error);
      }
      r := Ok(None);
    }

    /// The `Program` visitor.
    method VisitProgram(p: seq<Statement>, fuel: nat) returns (r: Result<LoxObj>)
      requires |executor.state.scopes| > 0
      modifies executor, executor.state
      ensures (r, executor.Mach()) == FuncRun(p, old(executor.Mach()), fuel)
    {
      ghost var m0 := executor.Mach();
      var i := 0;
      while i < |p|
        invariant 0 <= i <= |p| && |executor.state.scopes| > 0
        invariant FuncSteps(p[i..], executor.Mach(), fuel) == FuncSteps(p, m0, fuel)
      {
        assert p[i..][1..] == p[i + 1..];
        var res := VisitStatement(p[i], fuel);
        if res.Err? {
          return Err(res.error);
        }
        if res.value.Some? {
          return Ok(res.value.value);
        }
        i := i + 1;
      }
      r := Ok(FromValue(Integer(0)));
    }
  }
}
