/// The recursive-descent parser of `parser.rs`: four precedence layers
/// (equality, comparison, term, factor) above `unary` and `primary`, all
/// reading the pre-incrementing token reader.
///
/// `parser.rs` uses node types and token tests that no file of the
/// repository defines (`Node`, `FinalOrRecursive`, `replace_right`,
/// `is_mul_div`, ...). They are given the meaning their names and uses
/// suggest: a node holds a left operand, the latest operator and a final
/// right operand; the token tests compare with the punctuation they name.
/// The four node types of the source (`FactorNode`, `TermNode`, ...) share
/// one shape here, `Tree`, and a layer is named by its level: 1 for factor,
/// 2 for term, 3 for comparison, 4 for equality, 0 for unary.
///
/// The functions below describe each parse with the reader at index `p`,
/// returning the result and the index the reader is left at; the `Parser`
/// class runs the same steps on a reader and is proved to agree with them.
module Parsing {
  import opened Errors
  import opened Tokens
  import LegacyReaders

  /// `UnaryNode::of(op, primary)`.
  datatype UnaryNode = UnaryNode(op: Option<Token>, primary: Token)

  /// A unary operand, or a layer's node: its first operand, the operator
  /// last read and the right operand that came with it (`Final(right)` in
  /// the source, the only form of right operand the parser builds).
  datatype Tree = Leaf(unary: UnaryNode) | Node(left: Tree, op: Token, right: Tree)

  /// `ExprNode { eq }`.
  datatype ExprNode = ExprNode(eq: Tree)

  const FactorLevel: nat := 1
  const TermLevel: nat := 2
  const ComparisonLevel: nat := 3
  const EqualityLevel: nat := 4

  predicate IsNeg(t: Token) { t.EqPunct(Minus) }
  predicate IsMulDiv(t: Token) { t.EqPunct(Star) || t.EqPunct(Slash) }
  predicate IsPlusMinus(t: Token) { t.EqPunct(Plus) || t.EqPunct(Minus) }
  predicate IsComparison(t: Token)
  {
    t.EqPunct(Greater) || t.EqPunct(GreaterEqual) || t.EqPunct(Less) || t.EqPunct(LessEqual)
  }
  predicate IsEqOrNeq(t: Token) { t.EqPunct(EqualEqual) || t.EqPunct(BangEqual) }

  /// The operators the layer at `level` accepts.
  predicate IsOp(level: nat, t: Token)
    requires 1 <= level <= EqualityLevel
  {
    if level == FactorLevel then IsMulDiv(t)
    else if level == TermLevel then IsPlusMinus(t)
    else if level == ComparisonLevel then IsComparison(t)
    else IsEqOrNeq(t)
  }

  /// The message of the layer at `level` when it has seen no operator.
  function NotFound(level: nat): string
  {
    if level == FactorLevel then "Factor node not found!"
    else if level == TermLevel then "Term not found!"
    else if level == ComparisonLevel then "Comparison node not found!"
    else "Equality node not found!"
  }

  /// `Parser::err`: a parsing error recording the reader's current token,
  /// if the index is in range.
  function ParseErr(ts: seq<Token>, p: nat, text: string): (e: LoxError)
    ensures e.kind == ParsingErr
    ensures e.pos.Some? <==> p < |ts|
    ensures p < |ts| ==> e.pos == Some(ts[p].Pos())
  {
    LoxError(ParsingErr, if p < |ts| then Some(ts[p].Pos()) else None, text)
  }

  /// `recursive_node`: the first operator makes a node over `left`; each
  /// later one keeps the node's left operand and replaces the rest.
  function RecursiveNode(node: Option<Tree>, left: Tree, op: Token, right: Tree): (r: Tree)
    requires node.Some? ==> node.value.Node?
    ensures r.Node? && r.op == op && r.right == right
    ensures r.left == (if node.Some? then node.value.left else left)
  {
    match node
    case None => Node(left, op, right)
    case Some(n) => Node(n.left, op, right)
  }

  /// `primary` with the reader at `p`: advances, then accepts only a value
  /// or identifier token.
  function PPrimary(ts: seq<Token>, p: nat): (res: (Result<Token>, nat))
    ensures res.1 == p + 1
    ensures res.0.Ok? <==> p + 1 < |ts| && (ts[p + 1].ValueToken? || ts[p + 1].IdentifierToken?)
    ensures res.0.Ok? ==> res.0.value == ts[p + 1]
    ensures res.0.Err? ==> res.0.error.kind == ParsingErr
  {
    var q := p + 1;
    if q < |ts| && (ts[q].ValueToken? || ts[q].IdentifierToken?) then (Ok(ts[q]), q)
    else (Err(ParseErr(ts, q, "Primary expressio not found!")), q)
  }

  /// `unary` with the reader at `p`: advances; a negation becomes the
  /// operator of the primary after it, anything else is stepped back over
  /// and read again as the primary.
  function PUnary(ts: seq<Token>, p: nat): (res: (Result<UnaryNode>, nat))
    ensures res.1 > p
    ensures res.0.Ok? ==> res.0.value.op.None? || IsNeg(res.0.value.op.value)
    ensures res.0.Ok? ==> res.0.value.primary.ValueToken? || res.0.value.primary.IdentifierToken?
    ensures res.0.Err? ==> res.0.error.kind == ParsingErr
    ensures p + 1 >= |ts| ==> res.0.Err? && res.1 == p + 1
    ensures p + 1 < |ts| && IsNeg(ts[p + 1])
      ==> && res.1 == p + 2
          && (res.0.Ok? <==> p + 2 < |ts| && (ts[p + 2].ValueToken? || ts[p + 2].IdentifierToken?))
          && (res.0.Ok? ==> res.0.value == UnaryNode(Some(ts[p + 1]), ts[p + 2]))
    ensures p + 1 < |ts| && !IsNeg(ts[p + 1])
      ==> && res.1 == p + 1
          && (res.0.Ok? <==> ts[p + 1].ValueToken? || ts[p + 1].IdentifierToken?)
          && (res.0.Ok? ==> res.0.value == UnaryNode(None, ts[p + 1]))
  {
    var q := p + 1;
    if q >= |ts| then (Err(ParseErr(ts, q, "Token not found!")), q)
    else if IsNeg(ts[q]) then
      var (r, q2) := PPrimary(ts, q);
      (if r.Ok? then Ok(UnaryNode(Some(ts[q]), r.value)) else Err(r.error), q2)
    else
      var (r, q2) := PPrimary(ts, p);
      (if r.Ok? then Ok(UnaryNode(None, r.value)) else Err(r.error), q2)
  }

  /// A measure of how much of the token list is left after index `p`.
  function Left(ts: seq<Token>, p: nat): nat
  {
    if p < |ts| then |ts| - p else 0
  }

  /// The parse at `level` with the reader at `p`: `unary` at level 0, a
  /// precedence layer above it.
  function PLevel(ts: seq<Token>, p: nat, level: nat): (res: (Result<Tree>, nat))
    requires level <= EqualityLevel
    ensures res.1 > p
    ensures res.0.Err? ==> res.0.error.kind == ParsingErr
    decreases Left(ts, p), level, 2
  {
    if level == 0 then
      var (r, q) := PUnary(ts, p);
      (if r.Ok? then Ok(Leaf(r.value)) else Err(r.error), q)
    else Layer(ts, p, level)
  }

  /// A precedence layer with the reader at `p`: its first operand, then the
  /// loop.
  function Layer(ts: seq<Token>, p: nat, level: nat): (res: (Result<Tree>, nat))
    requires 1 <= level <= EqualityLevel
    ensures res.1 > p
    ensures res.0.Err? ==> res.0.error.kind == ParsingErr
    decreases Left(ts, p), level, 1
  {
    var (l, q) := PLevel(ts, p, level - 1);
    if l.Err? then (Err(l.error), q) else LayerLoop(ts, q, l.value, None, level)
  }

  /// The `while let` loop of a layer with the reader at `p`, the first
  /// operand `left` parsed and `node` built so far: every token read must be
  /// the layer's operator and be followed by an operand; the loop ends only
  /// when the reader runs out, and then a node must exist.
  function LayerLoop(ts: seq<Token>, p: nat, left: Tree, node: Option<Tree>, level: nat)
    : (res: (Result<Tree>, nat))
    requires 1 <= level <= EqualityLevel
    requires node.Some? ==> node.value.Node?
    ensures res.1 > p
    ensures res.0.Err? ==> res.0.error.kind == ParsingErr
    decreases Left(ts, p), level, 0
  {
    var q := p + 1;
    if q >= |ts| then
      (if node.Some? then Ok(node.value) else Err(ParseErr(ts, q, NotFound(level))), q)
    else if !IsOp(level, ts[q]) then
      (Err(ParseErr(ts, q, "Expected new comparison but no :(")), q)
    else
      var (r, q2) := PLevel(ts, q, level - 1);
      if r.Err? then (Err(r.error), q2)
      else LayerLoop(ts, q2, left, Some(RecursiveNode(node, left, ts[q], r.value)), level)
  }

  /// `expression` with the reader at `p`.
  function PExpression(ts: seq<Token>, p: nat): (res: (Result<ExprNode>, nat))
    ensures res.1 > p
    ensures res.0.Err? ==> res.0.error.kind == ParsingErr
    ensures res.0.Ok? <==> PLevel(ts, p, EqualityLevel).0.Ok?
    ensures res.0.Ok? ==> res.0.value.eq == PLevel(ts, p, EqualityLevel).0.value
  {
    var (r, q) := PLevel(ts, p, EqualityLevel);
    (if r.Ok? then Ok(ExprNode(r.value)) else Err(r.error), q)
  }

  /// The factor layer does produce trees, but `recursive_node` keeps only
  /// the first operand and the last operator-operand pair: in `a * b * c`
  /// the middle operand `b` is lost.
  lemma FactorDropsMiddleOperand(x: Token, a: Token, s1: Token, b: Token, s2: Token, c: Token)
    requires a.ValueToken? && b.ValueToken? && c.ValueToken?
    requires s1.EqPunct(Star) && s2.EqPunct(Star)
    ensures PLevel([x, a, s1, b, s2, c], 0, FactorLevel)
      == (Ok(Node(Leaf(UnaryNode(None, a)), s2, Leaf(UnaryNode(None, c)))), 6)
  {
    var ts := [x, a, s1, b, s2, c];
    var la, lb, lc := Leaf(UnaryNode(None, a)), Leaf(UnaryNode(None, b)), Leaf(UnaryNode(None, c));
    assert PLevel(ts, 0, 0) == (Ok(la), 1);
    assert PLevel(ts, 2, 0) == (Ok(lb), 3);
    assert PLevel(ts, 4, 0) == (Ok(lc), 5);
    assert LayerLoop(ts, 5, la, Some(Node(la, s2, lc)), FactorLevel) == (Ok(Node(la, s2, lc)), 6);
    assert LayerLoop(ts, 3, la, Some(Node(la, s1, lb)), FactorLevel) == (Ok(Node(la, s2, lc)), 6);
    assert LayerLoop(ts, 1, la, None, FactorLevel) == (Ok(Node(la, s2, lc)), 6);
  }

  /// A layer above unary succeeds only once the reader has run past the
  /// last token: its loop has no other way out.
  lemma {:induction false} LoopOkOnlyAtEnd(ts: seq<Token>, p: nat, left: Tree, node: Option<Tree>, level: nat)
    requires 1 <= level <= EqualityLevel
    requires node.Some? ==> node.value.Node?
    ensures LayerLoop(ts, p, left, node, level).0.Ok? ==> LayerLoop(ts, p, left, node, level).1 >= |ts|
    decreases Left(ts, p)
  {
    var q := p + 1;
    if q < |ts| && IsOp(level, ts[q]) {
      var (r, q2) := PLevel(ts, q, level - 1);
      if r.Ok? {
        LoopOkOnlyAtEnd(ts, q2, left, Some(RecursiveNode(node, left, ts[q], r.value)), level);
      }
    }
  }

  /// The same for the whole layer.
  lemma LevelOkOnlyAtEnd(ts: seq<Token>, p: nat, level: nat)
    requires 1 <= level <= EqualityLevel
    ensures PLevel(ts, p, level).0.Ok? ==> PLevel(ts, p, level).1 >= |ts|
  {
    var (l, q) := PLevel(ts, p, level - 1);
    if l.Ok? {
      LoopOkOnlyAtEnd(ts, q, l.value, None, level);
    }
  }

  /// Every layer above factor fails on every input: its first operand has
  /// already consumed all tokens, so its own loop ends at once with no node.
  lemma AboveFactorFails(ts: seq<Token>, p: nat, level: nat)
    requires TermLevel <= level <= EqualityLevel
    ensures PLevel(ts, p, level).0.Err?
    ensures PLevel(ts, p, level).0.error.kind == ParsingErr
  {
    LevelOkOnlyAtEnd(ts, p, level - 1);
    var (l, q) := PLevel(ts, p, level - 1);
    assert PLevel(ts, p, level) == Layer(ts, p, level);
    if l.Ok? {
      assert q + 1 >= |ts|;
      assert Layer(ts, p, level) == LayerLoop(ts, q, l.value, None, level);
    }
  }

  /// Hence `expression` never yields a tree.
  lemma ExpressionNeverParses(ts: seq<Token>, p: nat)
    ensures PExpression(ts, p).0.Err?
    ensures PExpression(ts, p).0.error.kind == ParsingErr
  {
    AboveFactorFails(ts, p, EqualityLevel);
  }

  /// What a parse from index `p` reads lies after `p`: the reader moves
  /// before its first read, so from a fresh reader the first token is never
  /// looked at.
  lemma {:induction false} LevelIgnoresUpTo(ts: seq<Token>, us: seq<Token>, p: nat, level: nat)
    requires level <= EqualityLevel
    requires AgreeAfter(ts, us, p)
    ensures PLevel(ts, p, level) == PLevel(us, p, level)
    decreases Left(ts, p), level, 2
  {
    if level == 0 {
      if p + 1 < |ts| {
        assert ts[p + 1] == us[p + 1];
        if p + 2 < |ts| {
          assert ts[p + 2] == us[p + 2];
        }
      }
    } else {
      LayerIgnoresUpTo(ts, us, p, level);
    }
  }

  lemma {:induction false} LayerIgnoresUpTo(ts: seq<Token>, us: seq<Token>, p: nat, level: nat)
    requires 1 <= level <= EqualityLevel
    requires AgreeAfter(ts, us, p)
    ensures Layer(ts, p, level) == Layer(us, p, level)
    decreases Left(ts, p), level, 1
  {
    LevelIgnoresUpTo(ts, us, p, level - 1);
    var (l, q) := PLevel(ts, p, level - 1);
    if l.Ok? {
      SuffixAgrees(ts, us, p, q);
      LoopIgnoresUpTo(ts, us, q, l.value, None, level);
    }
  }

  lemma {:induction false} LoopIgnoresUpTo(ts: seq<Token>, us: seq<Token>, p: nat, left: Tree, node: Option<Tree>, level: nat)
    requires 1 <= level <= EqualityLevel
    requires node.Some? ==> node.value.Node?
    requires AgreeAfter(ts, us, p)
    ensures LayerLoop(ts, p, left, node, level) == LayerLoop(us, p, left, node, level)
    decreases Left(ts, p), level, 0
  {
    var q := p + 1;
    if q < |ts| {
      assert ts[q] == us[q];
      if IsOp(level, ts[q]) {
        LevelIgnoresUpTo(ts, us, q, level - 1);
        var (r, q2) := PLevel(ts, q, level - 1);
        if r.Ok? {
          SuffixAgrees(ts, us, p, q2);
          LoopIgnoresUpTo(ts, us, q2, left, Some(RecursiveNode(node, left, ts[q], r.value)), level);
        }
      }
    }
  }

  /// `ts` and `us` have the same length and the same tokens after index `p`.
  predicate AgreeAfter(ts: seq<Token>, us: seq<Token>, p: nat)
  {
    |ts| == |us| && forall i :: p < i < |ts| ==> ts[i] == us[i]
  }

  /// Agreement after `p` is agreement after any later index.
  lemma SuffixAgrees(ts: seq<Token>, us: seq<Token>, p: nat, q: nat)
    requires AgreeAfter(ts, us, p) && p <= q
    ensures AgreeAfter(ts, us, q)
  {
  }

  /// `expression` on a fresh reader gives the same result whatever the
  /// first token is.
  lemma FirstTokenNeverRead(ts: seq<Token>, t: Token)
    requires |ts| > 0
    ensures PExpression(ts, 0) == PExpression(ts[0 := t], 0)
  {
    LevelIgnoresUpTo(ts, ts[0 := t], 0, EqualityLevel);
  }

  /// `Parser`: the token reader and the parsing methods that advance it.
  class Parser {
    const tokenReader: LegacyReaders.TokenReader

    /// `Parser::new`, over the scanner's tokens.
    constructor New(tokens: seq<Token>)
      ensures fresh(tokenReader) && tokenReader.tokens == tokens && tokenReader.pos == 0
    {
      tokenReader := new LegacyReaders.TokenReader.New(tokens);
    }

    /// `err`.
    function ErrorHere(text: string): (e: LoxError)
      reads tokenReader
      ensures e == ParseErr(tokenReader.tokens, tokenReader.pos, text)
      ensures e.pos.Some? <==> tokenReader.CurrToken().Some?
    {
      var t := tokenReader.CurrToken();
      LoxError(ParsingErr, if t.Some? then Some(t.value.Pos()) else None, text)
    }

    /// `expression`.
    method Expression() returns (r: Result<ExprNode>)
      modifies tokenReader
      ensures (r, tokenReader.pos) == PExpression(tokenReader.tokens, old(tokenReader.pos))
    {
      var eq := Equality();
      r := if eq.Ok? then Ok(ExprNode(eq.value)) else Err(eq.error);
    }

    /// `equality`.
    method Equality() returns (r: Result<Tree>)
      modifies tokenReader
      ensures (r, tokenReader.pos) == PLevel(tokenReader.tokens, old(tokenReader.pos), EqualityLevel)
    {
      ghost var ts := tokenReader.tokens;
      ghost var goal := PLevel(ts, tokenReader.pos, EqualityLevel);
      assert goal == Layer(ts, tokenReader.pos, EqualityLevel);
      var left := Comparison();
      if left.Err? {
        return Err(left.error);
      }
      var node: Option<Tree> := None;
      while true
        invariant tokenReader.tokens == ts
        invariant node.Some? ==> node.value.Node?
        invariant goal == LayerLoop(ts, tokenReader.pos, left.value, node, EqualityLevel)
        decreases Left(ts, tokenReader.pos)
      {
        var token := tokenReader.Advance();
        if token.None? {
          return if node.Some? then Ok(node.value) else Err(ErrorHere(NotFound(EqualityLevel)));
        }
        if IsEqOrNeq(token.value) {
          var right := Comparison();
          if right.Err? {
            return Err(right.error);
          }
          node := Some(RecursiveNode(node, left.value, token.value, right.value));
        } else {
          return Err(ErrorHere("Expected new comparison but no :("));
        }
      }
    }

    /// `comparison`.
    method Comparison() returns (r: Result<Tree>)
      modifies tokenReader
      ensures (r, tokenReader.pos) == PLevel(tokenReader.tokens, old(tokenReader.pos), ComparisonLevel)
    {
      ghost var ts := tokenReader.tokens;
      ghost var goal := PLevel(ts, tokenReader.pos, ComparisonLevel);
      assert goal == Layer(ts, tokenReader.pos, ComparisonLevel);
      var left := Term();
      if left.Err? {
        return Err(left.error);
      }
      var node: Option<Tree> := None;
      while true
        invariant tokenReader.tokens == ts
        invariant node.Some? ==> node.value.Node?
        invariant goal == LayerLoop(ts, tokenReader.pos, left.value, node, ComparisonLevel)
        decreases Left(ts, tokenReader.pos)
      {
        var token := tokenReader.Advance();
        if token.None? {
          return if node.Some? then Ok(node.value) else Err(ErrorHere(NotFound(ComparisonLevel)));
        }
        if IsComparison(token.value) {
          var right := Term();
          if right.Err? {
            return Err(right.error);
          }
          node := Some(RecursiveNode(node, left.value, token.value, right.value));
        } else {
          return Err(ErrorHere("Expected new comparison but no :("));
        }
      }
    }

    /// `term`.
    method Term() returns (r: Result<Tree>)
      modifies tokenReader
      ensures (r, tokenReader.pos) == PLevel(tokenReader.tokens, old(tokenReader.pos), TermLevel)
    {
      ghost var ts := tokenReader.tokens;
      ghost var goal := PLevel(ts, tokenReader.pos, TermLevel);
      assert goal == Layer(ts, tokenReader.pos, TermLevel);
      var left := Factor();
      if left.Err? {
        return Err(left.error);
      }
      var node: Option<Tree> := None;
      while true
        invariant tokenReader.tokens == ts
        invariant node.Some? ==> node.value.Node?
        invariant goal == LayerLoop(ts, tokenReader.pos, left.value, node, TermLevel)
        decreases Left(ts, tokenReader.pos)
      {
        var token := tokenReader.Advance();
        if token.None? {
          return if node.Some? then Ok(node.value) else Err(ErrorHere(NotFound(TermLevel)));
        }
        if IsPlusMinus(token.value) {
          var right := Factor();
          if right.Err? {
            return Err(right.error);
          }
          node := Some(RecursiveNode(node, left.value, token.value, right.value));
        } else {
          return Err(ErrorHere("Expected new comparison but no :("));
        }
      }
    }

    /// `factor`. The source declares `node` without `mut` and reassigns it
    /// in the loop; it is read here as the mutable variable the other layers
    /// have.
    method Factor() returns (r: Result<Tree>)
      modifies tokenReader
      ensures (r, tokenReader.pos) == PLevel(tokenReader.tokens, old(tokenReader.pos), FactorLevel)
    {
      ghost var ts := tokenReader.tokens;
      ghost var goal := PLevel(ts, tokenReader.pos, FactorLevel);
      assert goal == Layer(ts, tokenReader.pos, FactorLevel);
      assert PLevel(ts, tokenReader.pos, 0).0.Ok? <==> PUnary(ts, tokenReader.pos).0.Ok?;
      var u := Unary();
      if u.Err? {
        return Err(u.error);
      }
      var left := Leaf(u.value);
      var node: Option<Tree> := None;
      while true
        invariant tokenReader.tokens == ts
        invariant node.Some? ==> node.value.Node?
        invariant goal == LayerLoop(ts, tokenReader.pos, left, node, FactorLevel)
        decreases Left(ts, tokenReader.pos)
      {
        var token := tokenReader.Advance();
        if token.None? {
          return if node.Some? then Ok(node.value) else Err(ErrorHere(NotFound(FactorLevel)));
        }
        if IsMulDiv(token.value) {
          var right := Unary();
          if right.Err? {
            return Err(right.error);
          }
          node := Some(RecursiveNode(node, left, token.value, Leaf(right.value)));
        } else {
          return Err(ErrorHere("Expected new comparison but no :("));
        }
      }
    }

    /// `unary`.
    method Unary() returns (r: Result<UnaryNode>)
      modifies tokenReader
      ensures (r, tokenReader.pos) == PUnary(tokenReader.tokens, old(tokenReader.pos))
    {
      var token := tokenReader.Advance();
      if token.None? {
        return Err(ErrorHere("Token not found!"));
      }
      if IsNeg(token.value) {
        var primary := Primary();
        r := if primary.Ok? then Ok(UnaryNode(Some(token.value), primary.value)) else Err(primary.error);
      } else {
        tokenReader.Back();
        var primary := Primary();
        r := if primary.Ok? then Ok(UnaryNode(None, primary.value)) else Err(primary.error);
      }
    }

    /// `primary`.
    method Primary() returns (r: Result<Token>)
      modifies tokenReader
      ensures (r, tokenReader.pos) == PPrimary(tokenReader.tokens, old(tokenReader.pos))
    {
      var token := tokenReader.Advance();
      if token.Some? && (token.value.ValueToken? || token.value.IdentifierToken?) {
        r := Ok(token.value);
      } else {
        r := Err(ErrorHere("Primary expressio not found!"));
      }
    }
  }
}
