/// `execute/state.rs`: the run-time scope stack. Index 0 is the global
/// scope, the last scope is the current one.
module States {
  import opened Errors
  import opened Definitions

  /// `Scope`: its bindings. The scope's name is never read and is left out.
  type Scope = map<string, LoxObj>

  /// `Scope::bind`: `name` is bound to `obj`, every other binding is kept.
  function ScopeBind(sc: Scope, name: string, obj: LoxObj): (r: Scope)
    ensures name in r && r[name] == obj
    ensures forall n :: n != name ==> (n in r <==> n in sc)
    ensures forall n :: n != name && n in sc ==> r[n] == sc[n]
  {
    sc[name := obj]
  }

  /// `Scope::get`: the binding, or a logic error at `pos`.
  function ScopeGet(sc: Scope, name: string, pos: Position): (r: Result<LoxObj>)
    ensures r.Ok? <==> name in sc
    ensures r.Ok? ==> r.value == sc[name]
    ensures r.Err? ==> r.error.kind == LogicError && r.error.pos == Some(pos)
  {
    if name in sc then Ok(sc[name]) else NewErr("Variable is not in scope", pos, LogicError)
  }

  /// The first scope from the bottom of the stack that binds `name`.
  function Outermost(scopes: seq<Scope>, name: string): (k: Option<nat>)
    ensures k.Some? ==> k.value < |scopes| && name in scopes[k.value]
    ensures k.Some? ==> forall j :: 0 <= j < k.value ==> name !in scopes[j]
    ensures k.None? ==> forall j :: 0 <= j < |scopes| ==> name !in scopes[j]
  {
    if scopes == [] then None
    else if name in scopes[0] then Some(0)
    else
      var k := Outermost(scopes[1..], name);
      if k.Some? then Some(k.value + 1) else None
  }

  /// The first scope from the top of the stack that binds `name`.
  function Innermost(scopes: seq<Scope>, name: string): (k: Option<nat>)
    ensures k.Some? ==> k.value < |scopes| && name in scopes[k.value]
    ensures k.Some? ==> forall j :: k.value < j < |scopes| ==> name !in scopes[j]
    ensures k.None? ==> forall j :: 0 <= j < |scopes| ==> name !in scopes[j]
  {
    if scopes == [] then None
    else if name in scopes[|scopes| - 1] then Some(|scopes| - 1)
    else Innermost(scopes[..|scopes| - 1], name)
  }

  /// The scope `State::bind` writes to: the outermost one binding `name`,
  /// otherwise the current one.
  function BindTarget(scopes: seq<Scope>, name: string): (k: nat)
    requires |scopes| > 0
    ensures k < |scopes|
  {
    var o := Outermost(scopes, name);
    if o.Some? then o.value else |scopes| - 1
  }

  /// The stack after `State::bind`.
  function BindIn(scopes: seq<Scope>, name: string, obj: LoxObj): (r: seq<Scope>)
    requires |scopes| > 0
    ensures |r| == |scopes|
    ensures forall i :: 0 <= i < |r| && i != BindTarget(scopes, name) ==> r[i] == scopes[i]
    ensures r[BindTarget(scopes, name)] == ScopeBind(scopes[BindTarget(scopes, name)], name, obj)
  {
    var k := BindTarget(scopes, name);
    scopes[k := ScopeBind(scopes[k], name, obj)]
  }

  /// `State::get`: the binding in the innermost scope that has one, or a
  /// run-time error at `pos`.
  function Lookup(scopes: seq<Scope>, name: string, pos: Position): (r: Result<LoxObj>)
    ensures r.Ok? <==> exists i :: 0 <= i < |scopes| && name in scopes[i]
    ensures r.Ok? ==> r.value == scopes[Innermost(scopes, name).value][name]
    ensures r.Err? ==> r.error.kind == RuntimeError && r.error.pos == Some(pos)
  {
    var k := Innermost(scopes, name);
    if k.Some? then Ok(scopes[k.value][name]) else NewErr("Variable is not in scope", pos, RuntimeError)
  }

  /// No name is bound in two scopes of the stack.
  predicate Unique(scopes: seq<Scope>)
  {
    forall i, j, n :: 0 <= i < j < |scopes| && n in scopes[i] ==> n !in scopes[j]
  }

  /// `bind` never adds a second binding of a name: it writes to the scope
  /// that already binds it, if any.
  lemma BindKeepsUnique(scopes: seq<Scope>, name: string, obj: LoxObj)
    requires |scopes| > 0
    ensures Unique(scopes) ==> Unique(BindIn(scopes, name, obj))
  {
    if !Unique(scopes) {
      return;
    }
    var r := BindIn(scopes, name, obj);
    var k := BindTarget(scopes, name);
    assert Outermost(scopes, name).None? ==> k == |scopes| - 1;
    forall i, j, n | 0 <= i < j < |r| && n in r[i]
      ensures n !in r[j]
    {
      assert n in scopes[i] || (n == name && i == k);
    }
  }

  /// A new empty scope on top, or the top scope removed, keeps the stack
  /// free of double bindings.
  lemma PushPopKeepUnique(scopes: seq<Scope>)
    ensures Unique(scopes) ==> Unique(scopes + [map[]])
    ensures Unique(scopes) && |scopes| > 0 ==> Unique(scopes[..|scopes| - 1])
  {
    var pushed := scopes + [map[]];
    assert forall i :: 0 <= i < |scopes| ==> pushed[i] == scopes[i];
  }

  /// Without double bindings the outermost scope binding a name is also
  /// the innermost, so `bind` and `get` meet the same scope whichever end
  /// of the stack they search from.
  lemma OutermostIsInnermost(scopes: seq<Scope>, name: string)
    requires Unique(scopes)
    ensures Outermost(scopes, name) == Innermost(scopes, name)
  {
    var o, n := Outermost(scopes, name), Innermost(scopes, name);
    if o.Some? {
      assert n.Some?;
    }
  }

  /// At most one scope of the stack binds `name`.
  predicate BoundOnce(scopes: seq<Scope>, name: string)
  {
    forall i, j :: 0 <= i < j < |scopes| && name in scopes[i] ==> name !in scopes[j]
  }

  /// `get` after `bind` finds the bound object when at most one scope held
  /// the name, and every other name still finds what it found before.
  lemma BindThenLookup(scopes: seq<Scope>, name: string, obj: LoxObj, other: string, pos: Position)
    requires |scopes| > 0
    ensures BoundOnce(scopes, name) ==> Lookup(BindIn(scopes, name, obj), name, pos) == Ok(obj)
    ensures other != name ==> Lookup(BindIn(scopes, name, obj), other, pos) == Lookup(scopes, other, pos)
  {
    var r := BindIn(scopes, name, obj);
    var k := BindTarget(scopes, name);
    if BoundOnce(scopes, name) {
      assert name in r[k];
      assert forall j :: k < j < |r| ==> name !in r[j];
      assert Innermost(r, name) == Some(k);
    }
    if other != name {
      assert forall i :: 0 <= i < |r| ==> (other in r[i] <==> other in scopes[i]);
      assert forall i :: 0 <= i < |r| && other in r[i] ==> r[i][other] == scopes[i][other];
      InnermostAgrees(scopes, r, other);
    }
  }

  /// Stacks that bind `name` in the same scopes to the same objects agree on
  /// looking it up.
  lemma {:induction false} InnermostAgrees(s: seq<Scope>, t: seq<Scope>, name: string)
    requires |s| == |t|
    requires forall i :: 0 <= i < |s| ==> (name in s[i] <==> name in t[i])
    ensures Innermost(s, name) == Innermost(t, name)
  {
    if s != [] && name !in s[|s| - 1] {
      InnermostAgrees(s[..|s| - 1], t[..|t| - 1], name);
    }
  }

  /// On a stack that binds a name twice, `bind` updates the outer binding
  /// and `get` still finds the inner one.
  lemma ShadowedBindIsInvisible(a: LoxObj, b: LoxObj, c: LoxObj, pos: Position)
    requires b != c
    ensures var scopes := [map["x" := a], map["x" := b]];
            Lookup(BindIn(scopes, "x", c), "x", pos) == Ok(b)
  {
    var scopes: seq<Scope> := [map["x" := a], map["x" := b]];
    assert Outermost(scopes, "x") == Some(0);
    assert Innermost(BindIn(scopes, "x", c), "x") == Some(1);
  }

  /// `State`: the stack of scopes.
  class State {
    var scopes: seq<Scope>

    /// `State::new`: the global scope alone, with no bindings.
    constructor New()
      ensures scopes == [map[]]
    {
      scopes := [map[]];
    }

    /// `push_new_scope`: an empty scope on top, the others untouched.
    method PushNewScope()
      modifies this
      ensures scopes == old(scopes) + [map[]]
    {
      scopes := scopes + [map[]];
    }

    /// `pop_last_scope`: the top scope removed, if there is one; nothing
    /// stops the global scope from being popped.
    method PopLastScope() returns (r: Option<()>)
      modifies this
      ensures r.Some? <==> |old(scopes)| > 0
      ensures r.Some? ==> scopes == old(scopes)[..|old(scopes)| - 1]
      ensures r.None? ==> scopes == old(scopes)
    {
      if |scopes| == 0 {
        return None;
      }
      scopes := scopes[..|scopes| - 1];
      return Some(());
    }

    /// `bind`: the first scope from the bottom that binds `name` is updated;
    /// if none does, the current one. An empty stack makes the source panic,
    /// which the executor never lets happen.
    method Bind(name: string, obj: LoxObj)
      requires |scopes| > 0
      modifies this
      ensures scopes == BindIn(old(scopes), name, obj)
    {
      var i := 0;
      while i < |scopes| && name !in scopes[i]
        invariant 0 <= i <= |scopes|
        invariant forall j :: 0 <= j < i ==> name !in scopes[j]
      {
        i := i + 1;
      }
      if i == |scopes| {
        i := |scopes| - 1;
      } else {
        assert Outermost(scopes, name) == Some(i);
      }
      scopes := scopes[i := ScopeBind(scopes[i], name, obj)];
    }

    /// `get`: the scopes searched from the top.
    method Get(name: string, pos: Position) returns (r: Result<LoxObj>)
      ensures r == Lookup(scopes, name, pos)
    {
      var i := |scopes|;
      while i > 0
        invariant 0 <= i <= |scopes|
        invariant forall j :: i <= j < |scopes| ==> name !in scopes[j]
      {
        if name in scopes[i - 1] {
          assert Innermost(scopes, name) == Some(i - 1);
          return Ok(scopes[i - 1][name]);
        }
        i := i - 1;
      }
      return NewErr("Variable is not in scope", pos, RuntimeError);
    }
  }
}
