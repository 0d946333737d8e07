/// `execute/executing.rs`: the tree-walking executor. Expressions are
/// evaluated against the scope stack (a call changes it), statements against
/// the stack and the output printed so far.
///
/// The functions below are the specification; the `Executor` class runs the
/// same steps on a mutable `State` and is proved to match them.
module Executing {
  import opened Errors
  import opened Tokens
  import opened Structure
  import opened Locator
  import opened Definitions
  import opened UnaryOperations
  import opened States
  import BinaryOperations

  /// What a statement can change: the scope stack and the objects printed.
  datatype Machine = Machine(scopes: seq<Scope>, printed: seq<LoxObj>)

  /// Evaluation is free of calls, the only expressions that change the
  /// scope stack.
  predicate CallFree(e: Expr)
    decreases e, 2
  {
    e.Eqlty? && CallFreeChain(e.eqlty)
  }

  predicate CallFreeChain(c: Chain)
    decreases c, 1
  {
    match c
    case Base(u) => CallFreeUnary(u)
    case Many(first, rest) =>
      CallFreeChain(first) && forall i :: 0 <= i < |rest| ==> CallFreeChain(rest[i].operand)
  }

  predicate CallFreeUnary(u: Unary)
    decreases u, 0
  {
    match u
    case Final(_, _) => true
    case Recursive(_, expr) => CallFree(expr)
    case Call(_, _, _) => false
  }

  /// A statement free of calls, down through the bodies it holds.
  predicate CallFreeStmt(st: Statement)
    decreases st, 0
  {
    match st
    case ExprStmt(_) => true
    case PrintStmt(e) => CallFree(e)
    case IfStmt(cond, body) => CallFree(cond) && CallFreeBody(body)
    case WhileLoop(cond, body) => CallFree(cond) && CallFreeBody(body)
    case LetStmt(_, rval) => CallFree(rval)
    case DefStmt(_, _) => true
    case Return(_) => true
  }

  predicate CallFreeBody(p: seq<Statement>)
    decreases p, 1
  {
    forall i :: 0 <= i < |p| ==> CallFreeStmt(p[i])
  }

  /// `as_lox_obj`: an identifier is looked up, a value is wrapped, any
  /// other token is a logic error at its position.
  function TokenObject(t: Token, s: seq<Scope>): (r: Result<LoxObj>)
    ensures t.IdentifierToken? ==> r == Lookup(s, t.name, t.at)
    ensures t.ValueToken? ==> r == Ok(FromValue(t.value))
    ensures !t.IdentifierToken? && !t.ValueToken? ==> r.Err? && r.error.kind == LogicError && r.error.pos == Some(t.Pos())
  {
    match t
    case IdentifierToken(name, pos) => Lookup(s, name, pos)
    case ValueToken(v, _) => Ok(FromValue(v))
    case _ => NewErr("is not a lox object", t.Pos(), LogicError)
  }

  /// `lox_obj.apply(|raw| unary_op(op, raw))`.
  function ApplyUnary(op: Token, o: LoxObj): (r: Result<LoxObj>)
    ensures r.Ok? <==> UnaryOp(op, o.ptr).Ok?
    ensures r.Ok? ==> r.value.ptr == UnaryOp(op, o.ptr).value
    ensures r.Err? ==> r.error == UnaryOp(op, o.ptr).error
  {
    Apply(o, (raw: RawLoxObject) => UnaryOp(op, raw))
  }

  /// `eval_fold`: the accumulated error first, then the operand's; two
  /// plain values are combined by `binary_operations::handle` at the
  /// operator; any other object panics.
  function FoldStep(acc: Result<LoxObj>, op: Token, val: Result<LoxObj>): (r: Result<LoxObj>)
    ensures acc.Err? ==> r == acc
    ensures acc.Ok? && val.Err? ==> r == val
    ensures acc.Ok? && val.Ok? && !(acc.value.ptr.Plain? && val.value.ptr.Plain?) ==> r.Err? && r.error.kind == Panic
    ensures acc.Ok? && val.Ok? && acc.value.ptr.Plain? && val.value.ptr.Plain? ==>
      var h := BinaryOperations.Handle(op, acc.value.ptr.value, val.value.ptr.value, op.Pos());
      && (r.Ok? <==> h.Ok?)
      && (r.Ok? ==> r.value == FromValue(h.value))
      && (r.Err? ==> r.error == h.error)
  {
    if acc.Err? then acc
    else if val.Err? then val
    else if acc.value.ptr.Plain? && val.value.ptr.Plain? then
      var v :- BinaryOperations.Handle(op, acc.value.ptr.value, val.value.ptr.value, op.Pos());
      Ok(FromValue(v))
    else Abort("TODO: not panic")
  }

  /// The scopes after the parameters are bound pairwise to the arguments,
  /// as far as the shorter of the two lists goes (`zip`).
  function BindParams(s: seq<Scope>, names: seq<string>, vals: seq<LoxObj>): (r: seq<Scope>)
    requires |s| > 0
    ensures |r| == |s|
    ensures Unique(s) ==> Unique(r)
    decreases |names|
  {
    if names == [] || vals == [] then s
    else
      BindKeepsUnique(s, names[0], vals[0]);
      BindParams(BindIn(s, names[0], vals[0]), names[1..], vals[1..])
  }

  /// Binding parameters none of which is `n` leaves the lookup of `n` as it
  /// was.
  lemma {:induction false} BindParamsKeepsOthers(s: seq<Scope>, names: seq<string>, vals: seq<LoxObj>,
                                                 n: string, pos: Position)
    requires |s| > 0
    requires forall j :: 0 <= j < |names| && j < |vals| ==> names[j] != n
    ensures Lookup(BindParams(s, names, vals), n, pos) == Lookup(s, n, pos)
    decreases |names|
  {
    if names != [] && vals != [] {
      BindThenLookup(s, names[0], vals[0], n, pos);
      BindParamsKeepsOthers(BindIn(s, names[0], vals[0]), names[1..], vals[1..], n, pos);
    }
  }

  /// `zip` binds the parameters pairwise: on a stack without double
  /// bindings, the `i`-th parameter looks up as the `i`-th argument unless a
  /// later parameter of the same name overwrote it.
  lemma {:induction false} BindParamsBinds(s: seq<Scope>, names: seq<string>, vals: seq<LoxObj>,
                                           i: nat, pos: Position)
    requires |s| > 0 && Unique(s)
    requires i < |names| && i < |vals|
    requires forall j :: i < j < |names| && j < |vals| ==> names[j] != names[i]
    ensures Lookup(BindParams(s, names, vals), names[i], pos) == Ok(vals[i])
    decreases i
  {
    var s1 := BindIn(s, names[0], vals[0]);
    BindKeepsUnique(s, names[0], vals[0]);
    if i == 0 {
      BindThenLookup(s, names[0], vals[0], names[0], pos);
      BindParamsKeepsOthers(s1, names[1..], vals[1..], names[0], pos);
    } else {
      BindParamsBinds(s1, names[1..], vals[1..], i - 1, pos);
    }
  }

  /// The `Expr` visitor. A call whose callee is not an identifier has no
  /// arm in the source and panics.
  function EvalExpr(e: Expr, s: seq<Scope>): (res: (Result<LoxObj>, seq<Scope>))
    requires |s| > 0
    ensures |res.1| >= |s|
    ensures CallFree(e) ==> res.1 == s
    ensures Unique(s) ==> Unique(res.1)
    decreases e, 2
  {
    match e
    case Eqlty(c) => EvalChain(c, s)
    case CallExpr(callee, _) =>
      if callee.IdentifierToken? then EvalCall(e, s) else (Abort("todo: impl"), s)
  }

  /// A call: the callee is looked up and must be a function; the arguments
  /// are evaluated from left to right up to the first error; a scope is
  /// pushed, and the parameters bound in it. The body is not run, the result
  /// is the integer 0, and the pushed scope stays on the stack.
  function EvalCall(e: Expr, s: seq<Scope>): (res: (Result<LoxObj>, seq<Scope>))
    requires e.CallExpr? && e.callee.IdentifierToken? && |s| > 0
    ensures |res.1| >= |s|
    ensures Unique(s) ==> Unique(res.1)
    ensures var c := Lookup(s, e.callee.name, e.callee.at);
      c.Err? ==> res == (Err(c.error), s)
    ensures var c := Lookup(s, e.callee.name, e.callee.at);
      c.Ok? && c.value.ptr.Plain? ==> && res.0.Err? && res.0.error.kind == LogicError
                                      && res.0.error.pos == Some(e.callee.at) && res.1 == s
    ensures var c := Lookup(s, e.callee.name, e.callee.at);
      c.Ok? && c.value.ptr.Class? ==> res.0.Err? && res.0.error.kind == Panic && res.1 == s
    ensures var c := Lookup(s, e.callee.name, e.callee.at); var args := EvalArgs(e, 0, [], s);
      c.Ok? && c.value.ptr.Fun? && args.0.Err? ==> res == (Err(args.0.error), args.1 + [map[]])
    ensures var c := Lookup(s, e.callee.name, e.callee.at); var args := EvalArgs(e, 0, [], s);
      c.Ok? && c.value.ptr.Fun? && args.0.Ok?
      ==> res == (Ok(FromValue(Integer(0))), BindParams(args.1 + [map[]], c.value.ptr.def.args, args.0.value))
    decreases e, 1
  {
    var pos := e.callee.at;
    var called := Lookup(s, e.callee.name, pos);
    if called.Err? then (Err(called.error), s)
    else if RenderPanics(called.value.ptr) then (Abort("not implemented:("), s)
    else if !called.value.ptr.Fun? then (NewErr("is not callable", pos, LogicError), s)
    else
      var def := called.value.ptr.def;
      var (args, s1) := EvalArgs(e, 0, [], s);
      PushPopKeepUnique(s1);
      var s2 := s1 + [map[]];
      if args.Err? then (Err(args.error), s2)
      else (Ok(FromValue(Integer(0))), BindParams(s2, def.args, args.value))
  }

  /// The arguments `e.args[i..]`, evaluated after `done`; the first error
  /// ends the evaluation (`collect` into a `LoxResult`).
  function EvalArgs(e: Expr, i: nat, done: seq<LoxObj>, s: seq<Scope>): (res: (Result<seq<LoxObj>>, seq<Scope>))
    requires e.CallExpr? && i <= |e.args| && |s| > 0
    ensures |res.1| >= |s|
    ensures Unique(s) ==> Unique(res.1)
    ensures res.0.Ok? ==> |res.0.value| == |done| + |e.args| - i && res.0.value[..|done|] == done
    decreases e, 0, |e.args| - i
  {
    if i == |e.args| then (Ok(done), s)
    else
      assert e.args[i] in e.args;
      var (v, s1) := EvalExpr(e.args[i], s);
      if v.Err? then (Err(v.error), s1) else EvalArgs(e, i + 1, done + [v.value], s1)
  }

  /// Arguments without calls are evaluated on the caller's stack, from left
  /// to right: the result lists their values in order, or is the error of
  /// the first one that fails.
  lemma {:induction false} ArgsInOrder(e: Expr, i: nat, done: seq<LoxObj>, s: seq<Scope>)
    requires e.CallExpr? && i <= |e.args| && |s| > 0
    requires forall k :: i <= k < |e.args| ==> CallFree(e.args[k])
    ensures EvalArgs(e, i, done, s).1 == s
    ensures EvalArgs(e, i, done, s).0.Ok? <==> forall k :: i <= k < |e.args| ==> EvalExpr(e.args[k], s).0.Ok?
    ensures EvalArgs(e, i, done, s).0.Ok? ==>
      forall k :: i <= k < |e.args| ==> EvalArgs(e, i, done, s).0.value[|done| + k - i] == EvalExpr(e.args[k], s).0.value
    ensures EvalArgs(e, i, done, s).0.Err? ==>
      exists k :: && i <= k < |e.args| && EvalExpr(e.args[k], s).0.Err?
                  && EvalArgs(e, i, done, s).0.error == EvalExpr(e.args[k], s).0.error
                  && forall j :: i <= j < k ==> EvalExpr(e.args[j], s).0.Ok?
    decreases |e.args| - i
  {
    if i < |e.args| {
      var v := EvalExpr(e.args[i], s);
      if v.0.Ok? {
        ArgsInOrder(e, i + 1, done + [v.0.value], s);
        var r := EvalArgs(e, i + 1, done + [v.0.value], s);
        if r.0.Ok? {
          assert r.0.value[..|done| + 1] == done + [v.0.value];
          assert r.0.value[|done|] == v.0.value;
        }
      }
    }
  }

  /// The layer visitors: the first operand, then every pair's operand in
  /// turn, folded from the left by `eval_fold`. Every operand is evaluated,
  /// even after an error, as the fold consumes the whole iterator.
  function EvalChain(c: Chain, s: seq<Scope>): (res: (Result<LoxObj>, seq<Scope>))
    requires |s| > 0
    ensures |res.1| >= |s|
    ensures CallFreeChain(c) ==> res.1 == s
    ensures Unique(s) ==> Unique(res.1)
    decreases c, 1
  {
    match c
    case Base(u) => EvalUnary(u, s)
    case Many(first, _) =>
      var (a, s1) := EvalChain(first, s);
      EvalLinks(c, 0, a, s1)
  }

  /// The fold over the pairs `c.rest[i..]` from the accumulated `acc`.
  function EvalLinks(c: Chain, i: nat, acc: Result<LoxObj>, s: seq<Scope>): (res: (Result<LoxObj>, seq<Scope>))
    requires c.Many? && i <= |c.rest| && |s| > 0
    ensures |res.1| >= |s|
    ensures CallFreeChain(c) ==> res.1 == s
    ensures Unique(s) ==> Unique(res.1)
    decreases c, 0, |c.rest| - i
  {
    if i == |c.rest| then (acc, s)
    else
      assert c.rest[i] in c.rest;
      var (v, s1) := EvalChain(c.rest[i].operand, s);
      EvalLinks(c, i + 1, FoldStep(acc, c.rest[i].op, v), s1)
  }

  /// The `Unary` visitor. The source has no arm for a call here.
  function EvalUnary(u: Unary, s: seq<Scope>): (res: (Result<LoxObj>, seq<Scope>))
    requires |s| > 0
    ensures |res.1| >= |s|
    ensures CallFreeUnary(u) ==> res.1 == s
    ensures Unique(s) ==> Unique(res.1)
    decreases u, 0
  {
    match u
    case Final(None, token) => (TokenObject(token, s), s)
    case Final(Some(op), token) =>
      var o := TokenObject(token, s);
      (if o.Err? then o else ApplyUnary(op, o.value), s)
    case Recursive(None, expr) => EvalExpr(expr, s)
    case Recursive(Some(op), expr) =>
      var (o, s1) := EvalExpr(expr, s);
      (if o.Err? then o else ApplyUnary(op, o.value), s1)
    case Call(_, _, _) => (Abort("no executor arm for a unary call"), s)
  }

  /// `r` is `s` with bindings changed or added only in its top scope: every
  /// scope below the top binds the same names as before.
  predicate SameNamesBelowTop(s: seq<Scope>, r: seq<Scope>)
  {
    |r| == |s| && forall i :: 0 <= i < |s| - 1 ==> r[i].Keys == s[i].Keys
  }

  /// `bind` adds a name only to the current scope: below it, it overwrites
  /// a binding that is already there.
  lemma BindAddsOnTop(s: seq<Scope>, name: string, obj: LoxObj)
    requires |s| > 0
    ensures SameNamesBelowTop(s, BindIn(s, name, obj))
  {
    var k := BindTarget(s, name);
    if k < |s| - 1 {
      assert name in s[k];
      assert BindIn(s, name, obj)[k].Keys == s[k].Keys + {name};
    }
  }

  /// The `Statement` visitor.
  function ExecStmt(st: Statement, m: Machine, fuel: nat): (res: (Result<()>, Machine))
    requires |m.scopes| > 0
    ensures |res.1.scopes| >= |m.scopes|
    ensures CallFreeStmt(st) ==> SameNamesBelowTop(m.scopes, res.1.scopes)
    ensures Unique(m.scopes) ==> Unique(res.1.scopes)
    ensures m.printed <= res.1.printed
    ensures st.ExprStmt? ==> res == (Ok(()), m)
    ensures st.PrintStmt? ==> res == ExecPrint(st.expr, m)
    ensures st.IfStmt? ==> res == ExecIf(st, m, fuel)
    ensures st.WhileLoop? ==> res == ExecWhile(st, m, fuel)
    ensures st.LetStmt? ==> res == ExecLet(st.name, st.rval, m)
    ensures st.DefStmt? ==> res == (Ok(()), m.(scopes := BindIn(m.scopes, st.def.name, FromFun(st.def))))
    ensures st.Return? && Locatable(st.expr)
      ==> && res.0.Err? && res.0.error.kind == LogicError && res.0.error.pos == Some(Locate(st.expr))
          && res.1 == m
    ensures st.Return? && !Locatable(st.expr) ==> res.0.Err? && res.0.error.kind == Panic && res.1 == m
    decreases fuel, st, 2
  {
    match st
    case ExprStmt(_) => (Ok(()), m)
    case PrintStmt(e) => ExecPrint(e, m)
    case IfStmt(cond, body) => ExecIf(st, m, fuel)
    case WhileLoop(_, _) => ExecWhile(st, m, fuel)
    case LetStmt(name, rval) => ExecLet(name, rval, m)
    case DefStmt(_, def) =>
      BindKeepsUnique(m.scopes, def.name, FromFun(def));
      BindAddsOnTop(m.scopes, def.name, FromFun(def));
      (Ok(()), m.(scopes := BindIn(m.scopes, def.name, FromFun(def))))
    case Return(e) =>
      if Locatable(e) then (NewErr("return stmt outside function body", Locate(e), LogicError), m)
      else (Abort("locating a call"), m)
  }

  /// `print`: the evaluated object is appended to the output. Rendering
  /// it (`LoxObj::to_string`) succeeds for every object, a class included.
  function ExecPrint(e: Expr, m: Machine): (res: (Result<()>, Machine))
    requires |m.scopes| > 0
    ensures res.1.scopes == EvalExpr(e, m.scopes).1
    ensures res.0.Ok? <==> EvalExpr(e, m.scopes).0.Ok?
    ensures res.0.Err? ==> res.0.error == EvalExpr(e, m.scopes).0.error
    ensures res.1.printed == m.printed + (if res.0.Ok? then [EvalExpr(e, m.scopes).0.value] else [])
  {
    var (v, s1) := EvalExpr(e, m.scopes);
    if v.Err? then (Err(v.error), Machine(s1, m.printed))
    else (Ok(()), Machine(s1, m.printed + [v.value]))
  }

  /// `let`: the right-hand side is located (a call there panics), evaluated,
  /// and the name bound to the result.
  function ExecLet(name: string, rval: Expr, m: Machine): (res: (Result<()>, Machine))
    requires |m.scopes| > 0
    ensures res.1.printed == m.printed
    ensures res.0.Ok? <==> Locatable(rval) && EvalExpr(rval, m.scopes).0.Ok?
    ensures res.0.Ok? ==> res.1.scopes == BindIn(EvalExpr(rval, m.scopes).1, name, EvalExpr(rval, m.scopes).0.value)
    ensures res.0.Err? ==> res.1.scopes == (if Locatable(rval) then EvalExpr(rval, m.scopes).1 else m.scopes)
  {
    if !Locatable(rval) then (Abort("locating a call"), m)
    else
      var (v, s1) := EvalExpr(rval, m.scopes);
      if v.Err? then (Err(v.error), Machine(s1, m.printed))
      else
        BindKeepsUnique(s1, name, v.value);
        BindAddsOnTop(s1, name, v.value);
        (Ok(()), Machine(BindIn(s1, name, v.value), m.printed))
  }

  /// `if`: a true condition runs the body in a scope of its own, a false
  /// one does nothing, and a condition with no truth value is a logic error
  /// at the condition.
  function ExecIf(st: Statement, m: Machine, fuel: nat): (res: (Result<()>, Machine))
    requires st.IfStmt? && |m.scopes| > 0
    ensures |res.1.scopes| >= |m.scopes|
    ensures CallFreeStmt(st) ==> SameNamesBelowTop(m.scopes, res.1.scopes)
    ensures Unique(m.scopes) ==> Unique(res.1.scopes)
    ensures m.printed <= res.1.printed
    ensures var c := EvalExpr(st.cond, m.scopes);
      c.0.Err? ==> res == (Err(c.0.error), Machine(c.1, m.printed))
    ensures var c := EvalExpr(st.cond, m.scopes);
      c.0.Ok? && AsBool(c.0.value) == Some(true) ==> res == ExecScoped(st.body, Machine(c.1, m.printed), fuel)
    ensures var c := EvalExpr(st.cond, m.scopes);
      c.0.Ok? && AsBool(c.0.value) == Some(false) ==> res == (Ok(()), Machine(c.1, m.printed))
    ensures var c := EvalExpr(st.cond, m.scopes);
      c.0.Ok? && AsBool(c.0.value).None? && Locatable(st.cond)
      ==> && res.0.Err? && res.0.error.kind == LogicError && res.0.error.pos == Some(Locate(st.cond))
          && res.1 == Machine(c.1, m.printed)
    decreases fuel, st, 1
  {
    var (c, s1) := EvalExpr(st.cond, m.scopes);
    var m1 := Machine(s1, m.printed);
    if c.Err? then (Err(c.error), m1)
    else
      var b := AsBool(c.value);
      if b.None? then
        if Locatable(st.cond) then (NewErr("could not evaluate if stmt condition", Locate(st.cond), LogicError), m1)
        else (Abort("locating a call"), m1)
      else if b.value then ExecScoped(st.body, m1, fuel)
      else (Ok(()), m1)
  }

  /// `while`: the condition is evaluated before every round; false ends
  /// the loop, no truth value is a logic error without a position, and true
  /// runs the body in a scope of its own. The loop may go round `fuel`
  /// more times.
  function ExecWhile(st: Statement, m: Machine, fuel: nat): (res: (Result<()>, Machine))
    requires st.WhileLoop? && |m.scopes| > 0
    ensures |res.1.scopes| >= |m.scopes|
    ensures CallFreeStmt(st) ==> SameNamesBelowTop(m.scopes, res.1.scopes)
    ensures Unique(m.scopes) ==> Unique(res.1.scopes)
    ensures m.printed <= res.1.printed
    ensures var c := EvalExpr(st.cond, m.scopes);
      c.0.Err? ==> res == (Err(c.0.error), Machine(c.1, m.printed))
    ensures var c := EvalExpr(st.cond, m.scopes);
      c.0.Ok? && AsBool(c.0.value).None?
      ==> && res.0.Err? && res.0.error.kind == LogicError && res.0.error.pos.None?
          && res.1 == Machine(c.1, m.printed)
    ensures var c := EvalExpr(st.cond, m.scopes);
      c.0.Ok? && AsBool(c.0.value) == Some(false) ==> res == (Ok(()), Machine(c.1, m.printed))
    ensures var c := EvalExpr(st.cond, m.scopes);
      c.0.Ok? && AsBool(c.0.value) == Some(true) && fuel == 0
      ==> res.0.Err? && res.0.error.kind == OutOfFuel && res.1 == Machine(c.1, m.printed)
    decreases fuel, st, 1
  {
    var (c, s1) := EvalExpr(st.cond, m.scopes);
    var m1 := Machine(s1, m.printed);
    if c.Err? then (Err(c.error), m1)
    else
      var b := AsBool(c.value);
      if b.None? then (Err(LoxError(LogicError, None, "could not evaluate while stmt condition")), m1)
      else if !b.value then (Ok(()), m1)
      else if fuel == 0 then (Err(LoxError(OutOfFuel, None, "")), m1)
      else
        var (r, m2) := ExecScoped(st.body, m1, fuel);
        if r.Err? then (r, m2) else ExecWhile(st, m2, fuel - 1)
  }

  /// A true condition runs the body in a scope of its own; an error there
  /// ends the loop, otherwise the loop goes round again from the machine
  /// the body left.
  lemma WhileRound(st: Statement, m: Machine, fuel: nat)
    requires st.WhileLoop? && |m.scopes| > 0 && fuel > 0
    requires EvalExpr(st.cond, m.scopes).0.Ok? && AsBool(EvalExpr(st.cond, m.scopes).0.value) == Some(true)
    ensures var round := ExecScoped(st.body, Machine(EvalExpr(st.cond, m.scopes).1, m.printed), fuel);
            ExecWhile(st, m, fuel) == if round.0.Err? then round else ExecWhile(st, round.1, fuel - 1)
  {
  }

  /// `scoped`: a new scope is pushed, the body run, and the top scope
  /// popped, whether the body failed or not.
  function ExecScoped(body: seq<Statement>, m: Machine, fuel: nat): (res: (Result<()>, Machine))
    requires |m.scopes| > 0
    ensures |res.1.scopes| >= |m.scopes|
    ensures CallFreeBody(body) ==> |res.1.scopes| == |m.scopes|
    ensures CallFreeBody(body) ==> forall i :: 0 <= i < |m.scopes| ==> res.1.scopes[i].Keys == m.scopes[i].Keys
    ensures Unique(m.scopes) ==> Unique(res.1.scopes)
    ensures m.printed <= res.1.printed
    decreases fuel, body, 1
  {
    PushPopKeepUnique(m.scopes);
    var (r, m1) := ExecProgram(body, m.(scopes := m.scopes + [map[]]), fuel);
    PushPopKeepUnique(m1.scopes);
    (r, m1.(scopes := m1.scopes[..|m1.scopes| - 1]))
  }

  /// The `Program` visitor: the statements in order, up to the first error.
  function ExecProgram(p: seq<Statement>, m: Machine, fuel: nat): (res: (Result<()>, Machine))
    requires |m.scopes| > 0
    ensures |res.1.scopes| >= |m.scopes|
    ensures CallFreeBody(p) ==> SameNamesBelowTop(m.scopes, res.1.scopes)
    ensures Unique(m.scopes) ==> Unique(res.1.scopes)
    ensures m.printed <= res.1.printed
    decreases fuel, p, 0
  {
    if p == [] then (Ok(()), m)
    else
      var (r, m1) := ExecStmt(p[0], m, fuel);
      if r.Err? then (r, m1) else ExecProgram(p[1..], m1, fuel)
  }

  /// Running `p` then `q` is running `p + q`: `q` starts from the machine
  /// `p` leaves, and not at all when `p` fails.
  lemma {:induction false} ExecProgramAppend(p: seq<Statement>, q: seq<Statement>, m: Machine, fuel: nat)
    requires |m.scopes| > 0
    ensures ExecProgram(p + q, m, fuel)
         == (var (r, m1) := ExecProgram(p, m, fuel); if r.Err? then (r, m1) else ExecProgram(q, m1, fuel))
    decreases p
  {
    if p == [] {
      assert p + q == q;
    } else {
      assert (p + q)[0] == p[0];
      assert (p + q)[1..] == p[1..] + q;
      var (r, m1) := ExecStmt(p[0], m, fuel);
      if r.Ok? {
        ExecProgramAppend(p[1..], q, m1, fuel);
      }
    }
  }

  /// The loop bound ran out.
  predicate Exhausted(r: Result<()>)
  {
    r.Err? && r.error.kind == OutOfFuel
  }

  /// A run that did not exhaust its loop bound is the run with any larger
  /// bound: the bound only cuts runs short.
  lemma {:induction false} StmtFuel(st: Statement, m: Machine, f: nat, g: nat)
    requires |m.scopes| > 0 && f <= g && !Exhausted(ExecStmt(st, m, f).0)
    ensures ExecStmt(st, m, g) == ExecStmt(st, m, f)
    decreases f, st, 2
  {
    match st
    case IfStmt(_, _) => IfFuel(st, m, f, g);
    case WhileLoop(_, _) => WhileFuel(st, m, f, g);
    case _ =>
  }

  lemma {:induction false} IfFuel(st: Statement, m: Machine, f: nat, g: nat)
    requires st.IfStmt? && |m.scopes| > 0 && f <= g && !Exhausted(ExecIf(st, m, f).0)
    ensures ExecIf(st, m, g) == ExecIf(st, m, f)
    decreases f, st, 1
  {
    var (c, s1) := EvalExpr(st.cond, m.scopes);
    if c.Ok? && AsBool(c.value) == Some(true) {
      ScopedFuel(st.body, Machine(s1, m.printed), f, g);
    }
  }

  lemma {:induction false} WhileFuel(st: Statement, m: Machine, f: nat, g: nat)
    requires st.WhileLoop? && |m.scopes| > 0 && f <= g && !Exhausted(ExecWhile(st, m, f).0)
    ensures ExecWhile(st, m, g) == ExecWhile(st, m, f)
    decreases f, st, 1
  {
    var c := EvalExpr(st.cond, m.scopes);
    var m1 := Machine(c.1, m.printed);
    if c.0.Ok? && AsBool(c.0.value) == Some(true) {
      if f == 0 {
        assert false;
      } else {
        WhileRound(st, m, f);
        var round := ExecScoped(st.body, m1, f);
        ScopedFuel(st.body, m1, f, g);
        if round.0.Ok? {
          WhileFuel(st, round.1, f - 1, g - 1);
          assert ExecWhile(st, round.1, g - 1) == ExecWhile(st, round.1, f - 1);
        }
        WhileFuelStep(st, m, f, g, m1, round);
      }
    } else {
      WhileStops(st, m, f, g);
    }
  }

  /// One round of the loop under two bounds: if the body and the rest of
  /// the loop agree under both, so does the loop.
  lemma WhileFuelStep(st: Statement, m: Machine, f: nat, g: nat, m1: Machine, round: (Result<()>, Machine))
    requires st.WhileLoop? && |m.scopes| > 0 && 0 < f <= g
    requires EvalExpr(st.cond, m.scopes).0.Ok? && AsBool(EvalExpr(st.cond, m.scopes).0.value) == Some(true)
    requires m1 == Machine(EvalExpr(st.cond, m.scopes).1, m.printed)
    requires round == ExecScoped(st.body, m1, f) && ExecScoped(st.body, m1, g) == round
    requires round.0.Ok? ==> ExecWhile(st, round.1, g - 1) == ExecWhile(st, round.1, f - 1)
    ensures ExecWhile(st, m, g) == ExecWhile(st, m, f)
  {
    WhileRound(st, m, f);
    WhileRound(st, m, g);
  }

  /// A condition that is not true ends the loop whatever the bound.
  lemma WhileStops(st: Statement, m: Machine, f: nat, g: nat)
    requires st.WhileLoop? && |m.scopes| > 0
    requires var c := EvalExpr(st.cond, m.scopes); !(c.0.Ok? && AsBool(c.0.value) == Some(true))
    ensures ExecWhile(st, m, g) == ExecWhile(st, m, f)
  {
  }

  lemma {:induction false} ScopedFuel(body: seq<Statement>, m: Machine, f: nat, g: nat)
    requires |m.scopes| > 0 && f <= g && !Exhausted(ExecScoped(body, m, f).0)
    ensures ExecScoped(body, m, g) == ExecScoped(body, m, f)
    decreases f, body, 1
  {
    ProgramFuel(body, m.(scopes := m.scopes + [map[]]), f, g);
  }

  lemma {:induction false} ProgramFuel(p: seq<Statement>, m: Machine, f: nat, g: nat)
    requires |m.scopes| > 0 && f <= g && !Exhausted(ExecProgram(p, m, f).0)
    ensures ExecProgram(p, m, g) == ExecProgram(p, m, f)
    decreases f, p, 0
  {
    if p != [] {
      StmtFuel(p[0], m, f, g);
      var (r, m1) := ExecStmt(p[0], m, f);
      if r.Ok? {
        ProgramFuel(p[1..], m1, f, g);
      }
    }
  }

  /// Once the fold has failed, the failure is its result: the operands
  /// still to come are evaluated but do not change it.
  lemma {:induction false} LinksKeepError(c: Chain, i: nat, acc: Result<LoxObj>, s: seq<Scope>)
    requires c.Many? && i <= |c.rest| && |s| > 0 && acc.Err?
    ensures EvalLinks(c, i, acc, s).0 == acc
    decreases |c.rest| - i
  {
    if i < |c.rest| {
      var (v, s1) := EvalChain(c.rest[i].operand, s);
      LinksKeepError(c, i + 1, FoldStep(acc, c.rest[i].op, v), s1);
    }
  }

  /// A call of a function without arguments answers 0 and leaves the scope
  /// it pushed on the stack.
  lemma CallLeaksScope(name: string, pos: Position, def: FunctionDefinition, s: seq<Scope>)
    requires |s| > 0 && Lookup(s, name, pos) == Ok(FromFun(def))
    ensures EvalExpr(CallExpr(IdentifierToken(name, pos), []), s) == (Ok(FromValue(Integer(0))), s + [map[]])
  {
    var e := CallExpr(IdentifierToken(name, pos), []);
    assert EvalArgs(e, 0, [], s) == (Ok([]), s);
  }

  /// A parameter whose name the caller has bound is bound by overwriting
  /// the caller's binding, not in the scope the call pushed.
  lemma ParamOverwritesCaller(x: LoxObj, def: FunctionDefinition, pos: Position, at: Position)
    requires def.args == ["x"] && def.name == "f"
    ensures var s: seq<Scope> := [map["x" := x, "f" := FromFun(def)]];
            var one := Eqlty(Base(Final(None, ValueToken(Integer(1), at))));
            EvalExpr(CallExpr(IdentifierToken("f", pos), [one]), s)
              == (Ok(FromValue(Integer(0))), [map["x" := FromValue(Integer(1)), "f" := FromFun(def)], map[]])
  {
    var s: seq<Scope> := [map["x" := x, "f" := FromFun(def)]];
    var one := Eqlty(Base(Final(None, ValueToken(Integer(1), at))));
    var e := CallExpr(IdentifierToken("f", pos), [one]);
    assert Lookup(s, "f", pos) == Ok(FromFun(def));
    assert EvalUnary(one.eqlty.unary, s) == (Ok(FromValue(Integer(1))), s);
    assert EvalChain(one.eqlty, s) == (Ok(FromValue(Integer(1))), s);
    assert EvalExpr(one, s) == (Ok(FromValue(Integer(1))), s);
    assert e.args[0] == one;
    assert [] + [FromValue(Integer(1))] == [FromValue(Integer(1))];
    assert EvalArgs(e, 1, [FromValue(Integer(1))], s) == (Ok([FromValue(Integer(1))]), s);
    assert EvalArgs(e, 0, [], s) == (Ok([FromValue(Integer(1))]), s);
    assert EvalCall(e, s).1 == BindParams(s + [map[]], def.args, [FromValue(Integer(1))]);
    var s2 := s + [map[]];
    assert Outermost(s2, "x") == Some(0);
    assert BindParams(s2, def.args, [FromValue(Integer(1))]) == BindIn(s2, "x", FromValue(Integer(1)));
    assert s2[0]["x" := FromValue(Integer(1))] == map["x" := FromValue(Integer(1)), "f" := FromFun(def)];
    assert BindIn(s2, "x", FromValue(Integer(1))) == [s2[0]["x" := FromValue(Integer(1))], map[]];
    assert EvalCall(e, s) == (Ok(FromValue(Integer(0))), BindParams(s2, def.args, [FromValue(Integer(1))]));
  }

  /// `Executor`: the scope stack it runs on and, standing for standard
  /// output, the objects printed so far.
  class Executor {
    const state: State
    var printed: seq<LoxObj>

    /// The machine the specification functions speak of.
    ghost function Mach(): Machine
      reads this, state
    {
      Machine(state.scopes, printed)
    }

    /// `Executor::new`: a fresh state with the global scope alone.
    constructor New()
      ensures fresh(state) && Mach() == Machine([map[]], [])
    {
      state := new State.New();
      printed := [];
    }

    /// `Executor::from`: an executor on a given state.
    constructor From(st: State)
      ensures state == st && printed == []
    {
      state := st;
      printed := [];
    }

    /// `as_lox_obj`.
    method AsLoxObj(t: Token) returns (r: Result<LoxObj>)
      ensures r == TokenObject(t, state.scopes)
    {
      if t.IdentifierToken? {
        r := state.Get(t.name, t.at);
      } else if t.ValueToken? {
        r := Ok(FromValue(t.value));
      } else {
        r := NewErr("is not a lox object", t.Pos(), LogicError);
      }
    }

    /// The `Expr` visitor.
    method VisitExpr(e: Expr) returns (r: Result<LoxObj>)
      requires |state.scopes| > 0
      modifies state
      ensures (r, state.scopes) == EvalExpr(e, old(state.scopes))
      decreases e, 2
    {
      match e
      case Eqlty(c) =>
        r := VisitChain(c);
      case CallExpr(callee, _) =>
        if callee.IdentifierToken? {
          r := VisitCall(e);
        } else {
          r := Abort("todo: impl");
        }
    }

    /// The call arm of the `Expr` visitor.
    method VisitCall(e: Expr) returns (r: Result<LoxObj>)
      requires e.CallExpr? && e.callee.IdentifierToken? && |state.scopes| > 0
      modifies state
      ensures (r, state.scopes) == EvalCall(e, old(state.scopes))
      decreases e, 1
    {
      var pos := e.callee.at;
      var called := state.Get(e.callee.name, pos);
      if called.Err? {
        return Err(called.error);
      }
      if RenderPanics(called.value.ptr) {
        return Abort("not implemented:(");
      }
      if !called.value.ptr.Fun? {
        return NewErr("is not callable", pos, LogicError);
      }
      var def := called.value.ptr.def;
      var args := VisitArgs(e);
      state.PushNewScope();
      if args.Err? {
        return Err(args.error);
      }
      BindArgs(def.args, args.value);
      r := Ok(FromValue(Integer(0)));
    }

    /// The arguments of a call, evaluated in order up to the first error
    /// (`collect` into a `LoxResult`).
    method VisitArgs(e: Expr) returns (r: Result<seq<LoxObj>>)
      requires e.CallExpr? && |state.scopes| > 0
      modifies state
      ensures (r, state.scopes) == EvalArgs(e, 0, [], old(state.scopes))
      decreases e, 0
    {
      ghost var s0 := state.scopes;
      var args: seq<LoxObj> := [];
      var failed: Option<LoxError> := None;
      var i := 0;
      while i < |e.args| && failed.None?
        invariant 0 <= i <= |e.args| && |state.scopes| >= |s0|
        invariant failed.None? ==> EvalArgs(e, i, args, state.scopes) == EvalArgs(e, 0, [], s0)
        invariant failed.Some? ==> (Err(failed.value), state.scopes) == EvalArgs(e, 0, [], s0)
        decreases |e.args| - i, if failed.None? then 1 else 0
      {
        assert e.args[i] in e.args;
        var v := VisitExpr(e.args[i]);
        if v.Err? {
          failed := Some(v.error);
        } else {
          args := args + [v.value];
          i := i + 1;
        }
      }
      if failed.Some? {
        return Err(failed.value);
      }
      r := Ok(args);
    }

    /// The parameters bound pairwise to the arguments (`zip`).
    method BindArgs(names: seq<string>, vals: seq<LoxObj>)
      requires |state.scopes| > 0
      modifies state
      ensures state.scopes == BindParams(old(state.scopes), names, vals)
    {
      ghost var s2 := state.scopes;
      var j := 0;
      while j < |names| && j < |vals|
        invariant 0 <= j <= |names| && j <= |vals| && |state.scopes| == |s2|
        invariant BindParams(state.scopes, names[j..], vals[j..]) == BindParams(s2, names, vals)
      {
        assert names[j..][1..] == names[j + 1..] && vals[j..][1..] == vals[j + 1..];
        state.Bind(names[j], vals[j]);
        j := j + 1;
      }
    }

    /// The layer visitors: the operands in order, folded by `eval_fold`.
    method VisitChain(c: Chain) returns (r: Result<LoxObj>)
      requires |state.scopes| > 0
      modifies state
      ensures (r, state.scopes) == EvalChain(c, old(state.scopes))
      decreases c, 1
    {
      match c
      case Base(u) =>
        r := VisitUnary(u);
      case Many(first, rest) =>
        ghost var goal := EvalChain(c, state.scopes);
        r := VisitChain(first);
        var i := 0;
        while i < |rest|
          invariant 0 <= i <= |rest| && |state.scopes| > 0
          invariant EvalLinks(c, i, r, state.scopes) == goal
        {
          assert rest[i] in rest;
          var v := VisitChain(rest[i].operand);
          r := FoldStep(r, rest[i].op, v);
          i := i + 1;
        }
    }

    /// The `Unary` visitor.
    method VisitUnary(u: Unary) returns (r: Result<LoxObj>)
      requires |state.scopes| > 0
      modifies state
      ensures (r, state.scopes) == EvalUnary(u, old(state.scopes))
      decreases u, 0
    {
      match u
      case Final(op, token) =>
        r := AsLoxObj(token);
        if op.Some? && r.Ok? {
          r := ApplyUnary(op.value, r.value);
        }
      case Recursive(op, expr) =>
        r := VisitExpr(expr);
        if op.Some? && r.Ok? {
          r := ApplyUnary(op.value, r.value);
        }
      case Call(_, _, _) =>
        r := Abort("no executor arm for a unary call");
    }

    /// The `Statement` visitor.
    method Exec(st: Statement, fuel: nat) returns (r: Result<()>)
      requires |state.scopes| > 0
      modifies this, state
      ensures (r, Mach()) == ExecStmt(st, old(Mach()), fuel)
      decreases fuel, st, 2
    {
      match st
      case ExprStmt(_) =>
        r := Ok(());
      case PrintStmt(e) =>
        var v := VisitExpr(e);
        if v.Err? {
          r := Err(v.error);
        } else {
          printed := printed + [v.value];
          r := Ok(());
        }
      case IfStmt(_, _) =>
        r := VisitIf(st, fuel);
      case WhileLoop(_, _) =>
        r := VisitWhile(st, fuel);
      case LetStmt(name, rval) =>
        if !Locatable(rval) {
          return Abort("locating a call");
        }
        var v := VisitExpr(rval);
        if v.Err? {
          return Err(v.error);
        }
        state.Bind(name, v.value);
        r := Ok(());
      case DefStmt(_, def) =>
        state.Bind(def.name, FromFun(def));
        r := Ok(());
      case Return(e) =>
        if Locatable(e) {
          r := NewErr("return stmt outside function body", Locate(e), LogicError);
        } else {
          r := Abort("locating a call");
        }
    }

    /// The `if` arm.
    method VisitIf(st: Statement, fuel: nat) returns (r: Result<()>)
      requires st.IfStmt? && |state.scopes| > 0
      modifies this, state
      ensures (r, Mach()) == ExecIf(st, old(Mach()), fuel)
      decreases fuel, st, 1
    {
      var c := VisitExpr(st.cond);
      if c.Err? {
        return Err(c.error);
      }
      var b := AsBool(c.value);
      if b.None? {
        if Locatable(st.cond) {
          r := NewErr("could not evaluate if stmt condition", Locate(st.cond), LogicError);
        } else {
          r := Abort("locating a call");
        }
      } else if b.value {
        r := Scoped(st.body, fuel);
      } else {
        r := Ok(());
      }
    }

    /// The `while` arm: at most `fuel` rounds.
    method VisitWhile(st: Statement, fuel: nat) returns (r: Result<()>)
      requires st.WhileLoop? && |state.scopes| > 0
      modifies this, state
      ensures (r, Mach()) == ExecWhile(st, old(Mach()), fuel)
      decreases fuel, st, 1
    {
      ghost var goal := ExecWhile(st, Mach(), fuel);
      var f: nat := fuel;
      while true
        invariant f <= fuel && |state.scopes| > 0
        invariant ExecWhile(st, Mach(), f) == goal
        decreases f
      {
        var c := VisitExpr(st.cond);
        if c.Err? {
          return Err(c.error);
        }
        var b := AsBool(c.value);
        if b.None? {
          return Err(LoxError(LogicError, None, "could not evaluate while stmt condition"));
        }
        if !b.value {
          return Ok(());
        }
        if f == 0 {
          return Err(LoxError(OutOfFuel, None, ""));
        }
        r := Scoped(st.body, f);
        if r.Err? {
          return;
        }
        f := f - 1;
      }
    }

    /// `scoped`: push, run the body, pop.
    method Scoped(body: seq<Statement>, fuel: nat) returns (r: Result<()>)
      requires |state.scopes| > 0
      modifies this, state
      ensures (r, Mach()) == ExecScoped(body, old(Mach()), fuel)
      decreases fuel, body, 1
    {
      state.PushNewScope();
      r := Run(body, fuel);
      var popped := state.PopLastScope();
    }

    /// The `Program` visitor.
    method Run(p: seq<Statement>, fuel: nat) returns (r: Result<()>)
      requires |state.scopes| > 0
      modifies this, state
      ensures (r, Mach()) == ExecProgram(p, old(Mach()), fuel)
      decreases fuel, p, 0
    {
      ghost var goal := ExecProgram(p, Mach(), fuel);
      var i := 0;
      while i < |p|
        invariant 0 <= i <= |p| && |state.scopes| > 0
        invariant ExecProgram(p[i..], Mach(), fuel) == goal
      {
        assert p[i] in p;
        assert p[i..][1..] == p[i + 1..];
        r := Exec(p[i], fuel);
        if r.Err? {
          return;
        }
        i := i + 1;
      }
      r := Ok(());
    }
  }
}
