/// The parser of `parser.rs` as its layering evidently intends it: each
/// layer reads its first operand, then takes operator-operand pairs while the
/// next token is one of its operators, and hands anything else back to the
/// layer above; a layer with no operator yields its first operand. The cursor
/// here is the index of the next token to read, as in the newer
/// `readers/token_reader.rs`, so the first token is read too. Operator chains
/// associate to the left.
///
/// The round-trip lemma `ParseFlattenedExpression` states that every
/// well-formed tree is read back from its own tokens.
module CorrectedParsing {
  import opened Errors
  import opened Tokens
  import opened Parsing

  /// The next token, at index `p`, is an operator of some layer up to
  /// `level`.
  predicate OpUpTo(level: nat, t: Token)
  {
    (level >= FactorLevel && IsMulDiv(t)) || (level >= TermLevel && IsPlusMinus(t))
    || (level >= ComparisonLevel && IsComparison(t)) || (level >= EqualityLevel && IsEqOrNeq(t))
  }

  /// The operators of different layers are different tokens.
  lemma OpsDisjoint(level: nat, t: Token)
    requires 1 <= level <= EqualityLevel
    requires IsOp(level, t)
    ensures !OpUpTo(level - 1, t)
  {
  }

  /// `primary`: a value or identifier token at `p`.
  function CPrimary(ts: seq<Token>, p: nat): (res: (Result<Token>, nat))
    requires p <= |ts|
    ensures res.0.Ok? <==> p < |ts| && (ts[p].ValueToken? || ts[p].IdentifierToken?)
    ensures res.0.Ok? ==> res == (Ok(ts[p]), p + 1)
    ensures res.0.Err? ==> res.0.error.kind == ParsingErr
  {
    if p < |ts| && (ts[p].ValueToken? || ts[p].IdentifierToken?) then (Ok(ts[p]), p + 1)
    else (Err(ParseErr(ts, p, "Primary expression not found!")), p)
  }

  /// `unary`: an optional negation, then a primary.
  function CUnary(ts: seq<Token>, p: nat): (res: (Result<UnaryNode>, nat))
    requires p <= |ts|
    ensures p <= res.1 <= |ts|
    ensures res.0.Ok? ==> res.1 > p
  {
    if p < |ts| && IsNeg(ts[p]) then
      var (r, q) := CPrimary(ts, p + 1);
      (if r.Ok? then Ok(UnaryNode(Some(ts[p]), r.value)) else Err(r.error), q)
    else
      var (r, q) := CPrimary(ts, p);
      (if r.Ok? then Ok(UnaryNode(None, r.value)) else Err(r.error), q)
  }

  /// The parse at `level` from index `p`: unary at level 0, a layer above.
  function CLevel(ts: seq<Token>, p: nat, level: nat): (res: (Result<Tree>, nat))
    requires p <= |ts| && level <= EqualityLevel
    ensures p <= res.1 <= |ts|
    ensures res.0.Ok? ==> res.1 > p
    decreases |ts| - p, level, 1
  {
    if level == 0 then
      var (r, q) := CUnary(ts, p);
      (if r.Ok? then Ok(Leaf(r.value)) else Err(r.error), q)
    else
      var (l, q) := CLevel(ts, p, level - 1);
      if l.Err? then (Err(l.error), q) else CLoop(ts, q, l.value, level)
  }

  /// The loop of a layer after the operand `acc`: another operator extends
  /// the chain, anything else ends it without being consumed.
  function CLoop(ts: seq<Token>, p: nat, acc: Tree, level: nat): (res: (Result<Tree>, nat))
    requires p <= |ts| && 1 <= level <= EqualityLevel
    ensures p <= res.1 <= |ts|
    decreases |ts| - p, level, 0
  {
    if p < |ts| && IsOp(level, ts[p]) then
      var (r, q) := CLevel(ts, p + 1, level - 1);
      if r.Err? then (Err(r.error), q) else CLoop(ts, q, Node(acc, ts[p], r.value), level)
    else (Ok(acc), p)
  }

  /// `expression` from index `p`.
  function CExpression(ts: seq<Token>, p: nat): (res: (Result<ExprNode>, nat))
    requires p <= |ts|
    ensures p <= res.1 <= |ts|
    ensures res.0.Ok? ==> res.1 > p
    ensures res.0.Ok? <==> CLevel(ts, p, EqualityLevel).0.Ok?
    ensures res.0.Ok? ==> res.0.value.eq == CLevel(ts, p, EqualityLevel).0.value
  {
    var (r, q) := CLevel(ts, p, EqualityLevel);
    (if r.Ok? then Ok(ExprNode(r.value)) else Err(r.error), q)
  }

  /// The trees the layers build at `level`: a left-nested chain of the
  /// layer's operators over trees of the level below, down to unary leaves.
  predicate WellFormed(t: Tree, level: nat)
    decreases t, level
  {
    if level == 0 then
      t.Leaf? && (t.unary.op.None? || IsNeg(t.unary.op.value))
      && (t.unary.primary.ValueToken? || t.unary.primary.IdentifierToken?)
    else if level <= EqualityLevel && t.Node? && IsOp(level, t.op) then
      WellFormed(t.left, level) && WellFormed(t.right, level - 1)
    else WellFormed(t, level - 1)
  }

  /// The tokens a tree was read from, in order.
  function Flatten(t: Tree): (s: seq<Token>)
    ensures |s| >= 1
  {
    match t
    case Leaf(UnaryNode(None, primary)) => [primary]
    case Leaf(UnaryNode(Some(op), primary)) => [op, primary]
    case Node(left, op, right) => Flatten(left) + [op] + Flatten(right)
  }

  /// `s` occurs in `ts` starting at index `p`.
  predicate Located(ts: seq<Token>, p: nat, s: seq<Token>)
  {
    p + |s| <= |ts| && forall i :: 0 <= i < |s| ==> ts[p + i] == s[i]
  }

  /// The token at `e`, if any, is no operator of a layer up to `level`.
  predicate Stops(ts: seq<Token>, e: nat, level: nat)
  {
    e >= |ts| || !OpUpTo(level, ts[e])
  }

  /// A well-formed tree whose tokens are at `p` and are followed by no
  /// operator of its layers is parsed back, consuming exactly its tokens.
  lemma {:induction false} ParseFlattened(ts: seq<Token>, p: nat, t: Tree, level: nat)
    requires level <= EqualityLevel && WellFormed(t, level)
    requires Located(ts, p, Flatten(t)) && Stops(ts, p + |Flatten(t)|, level)
    ensures CLevel(ts, p, level) == (Ok(t), p + |Flatten(t)|)
    decreases t, level, 2
  {
    if level == 0 {
      var f := Flatten(t);
      if t.unary.op.None? {
        assert ts[p] == f[0];
      } else {
        assert ts[p] == f[0] && ts[p + 1] == f[1];
      }
    } else {
      LayerPrefix(ts, p, t, level);
    }
  }

  /// The layer at `level` reads a well-formed tree at `p` and arrives at
  /// its loop just after it, provided the next token is no operator of a
  /// lower layer.
  lemma {:induction false} LayerPrefix(ts: seq<Token>, p: nat, t: Tree, level: nat)
    requires 1 <= level <= EqualityLevel && WellFormed(t, level)
    requires Located(ts, p, Flatten(t)) && Stops(ts, p + |Flatten(t)|, level - 1)
    ensures p + |Flatten(t)| <= |ts|
    ensures CLevel(ts, p, level) == CLoop(ts, p + |Flatten(t)|, t, level)
    decreases t, level, 1
  {
    if t.Node? && IsOp(level, t.op) {
      LayerPrefixNode(ts, p, t, level);
    } else {
      assert WellFormed(t, level - 1);
      ParseFlattened(ts, p, t, level - 1);
    }
  }

  /// The case of `LayerPrefix` where the tree is a node of the layer: its
  /// left operand is read first, then its operator and right operand.
  lemma {:induction false} LayerPrefixNode(ts: seq<Token>, p: nat, t: Tree, level: nat)
    requires 1 <= level <= EqualityLevel && t.Node? && IsOp(level, t.op)
    requires WellFormed(t.left, level) && WellFormed(t.right, level - 1)
    requires Located(ts, p, Flatten(t)) && Stops(ts, p + |Flatten(t)|, level - 1)
    ensures p + |Flatten(t)| <= |ts|
    ensures CLevel(ts, p, level) == CLoop(ts, p + |Flatten(t)|, t, level)
    decreases t, level, 0
  {
    var m := p + |Flatten(t.left)|;
    LocatedParts(ts, p, t);
    OpsDisjoint(level, t.op);
    LayerPrefix(ts, p, t.left, level);
    ParseFlattened(ts, m + 1, t.right, level - 1);
    LoopStep(ts, m, t.left, t.op, t.right, level, p + |Flatten(t)|);
  }

  /// One round of a layer's loop: the operator at `m` and the operand
  /// parsed after it extend the chain.
  lemma LoopStep(ts: seq<Token>, m: nat, left: Tree, op: Token, right: Tree, level: nat, e: nat)
    requires 1 <= level <= EqualityLevel && m < |ts| && ts[m] == op && IsOp(level, op)
    requires CLevel(ts, m + 1, level - 1) == (Ok(right), e)
    ensures CLoop(ts, m, left, level) == CLoop(ts, e, Node(left, op, right), level)
  {
  }

  /// Where the parts of a node lie when the node lies at `p`.
  lemma LocatedParts(ts: seq<Token>, p: nat, t: Tree)
    requires t.Node? && Located(ts, p, Flatten(t))
    ensures Located(ts, p, Flatten(t.left))
    ensures ts[p + |Flatten(t.left)|] == t.op
    ensures Located(ts, p + |Flatten(t.left)| + 1, Flatten(t.right))
    ensures p + |Flatten(t)| == p + |Flatten(t.left)| + 1 + |Flatten(t.right)|
  {
    var fl, fr := Flatten(t.left), Flatten(t.right);
    assert Flatten(t) == fl + [t.op] + fr;
    forall i | 0 <= i < |fl|
      ensures ts[p + i] == fl[i]
    {
      assert ts[p + i] == Flatten(t)[i];
    }
    assert ts[p + |fl|] == Flatten(t)[|fl|];
    forall i | 0 <= i < |fr|
      ensures ts[p + |fl| + 1 + i] == fr[i]
    {
      assert ts[p + (|fl| + 1 + i)] == Flatten(t)[|fl| + 1 + i];
    }
  }

  /// Round trip: an expression tree is read back from its tokens followed
  /// by the end-of-file token the scanner appends.
  lemma ParseFlattenedExpression(t: Tree, eof: Position)
    requires WellFormed(t, EqualityLevel)
    ensures CExpression(Flatten(t) + [PunctToken(Eof, eof)], 0)
      == (Ok(ExprNode(t)), |Flatten(t)|)
  {
    var ts := Flatten(t) + [PunctToken(Eof, eof)];
    EofFollows(Flatten(t), eof);
    ParseFlattened(ts, 0, t, EqualityLevel);
  }

  /// A token list followed by `Eof` holds the list at 0, and what follows
  /// it is no operator.
  lemma EofFollows(f: seq<Token>, eof: Position)
    ensures Located(f + [PunctToken(Eof, eof)], 0, f)
    ensures Stops(f + [PunctToken(Eof, eof)], 0 + |f|, EqualityLevel)
  {
    var ts := f + [PunctToken(Eof, eof)];
    forall i | 0 <= i < |f|
      ensures ts[0 + i] == f[i]
    {
    }
    assert ts[|f|] == PunctToken(Eof, eof);
  }

  /// Corrected, `a * b * c` keeps all three operands, associated to the
  /// left.
  lemma FactorKeepsEveryOperand(a: Token, s1: Token, b: Token, s2: Token, c: Token)
    requires a.ValueToken? && b.ValueToken? && c.ValueToken?
    requires s1.EqPunct(Star) && s2.EqPunct(Star)
    ensures CLevel([a, s1, b, s2, c], 0, FactorLevel)
      == (Ok(Node(Node(Leaf(UnaryNode(None, a)), s1, Leaf(UnaryNode(None, b))), s2, Leaf(UnaryNode(None, c)))), 5)
  {
    var ts := [a, s1, b, s2, c];
    var t := Node(Node(Leaf(UnaryNode(None, a)), s1, Leaf(UnaryNode(None, b))), s2, Leaf(UnaryNode(None, c)));
    assert Flatten(t.left) == [a, s1, b];
    assert Flatten(t) == [a, s1, b] + [s2] + [c];
    assert WellFormed(t, FactorLevel) by {
      assert WellFormed(Leaf(UnaryNode(None, a)), FactorLevel - 1);
      assert WellFormed(Leaf(UnaryNode(None, a)), FactorLevel);
      assert WellFormed(Leaf(UnaryNode(None, b)), 0);
      assert WellFormed(Leaf(UnaryNode(None, c)), 0);
    }
    ParseFlattened(ts, 0, t, FactorLevel);
  }

  /// In particular a single value token, which the source's parser rejects,
  /// is an expression.
  lemma SingleValueParses(v: LoxValue, at: Position, eof: Position)
    ensures CExpression([ValueToken(v, at), PunctToken(Eof, eof)], 0)
      == (Ok(ExprNode(Leaf(UnaryNode(None, ValueToken(v, at))))), 1)
    ensures PExpression([ValueToken(v, at), PunctToken(Eof, eof)], 0).0.Err?
  {
    var t := Leaf(UnaryNode(None, ValueToken(v, at)));
    assert Flatten(t) + [PunctToken(Eof, eof)] == [ValueToken(v, at), PunctToken(Eof, eof)];
    assert WellFormed(t, EqualityLevel) by {
      assert WellFormed(t, 0);
      assert WellFormed(t, 1);
      assert WellFormed(t, 2);
      assert WellFormed(t, 3);
    }
    ParseFlattenedExpression(t, eof);
    ExpressionNeverParses([ValueToken(v, at), PunctToken(Eof, eof)], 0);
  }
}
