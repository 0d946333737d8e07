/// Cursors over a vector (`readers/reader.rs`, `readers/text_reader.rs`,
/// `readers/token_reader.rs`). The Rust readers keep their position in a
/// `Cell`; here it is a field that the advancing methods update. The blanket
/// `Reader` helpers (`peek`, `advance_if`, `advance_until`, `advance_or`,
/// `peek_or`) are written out on each of the two readers.
module Readers {
  import opened Errors
  import opened Tokens

  /// `Result<&A, E>` as returned by `advance_or` and `peek_or`.
  datatype Checked<+T, +E> = Value(value: T) | Failure(error: E)

  /// The index at which `advance_until(pred)` stops when started at `p`:
  /// the first element at or after `p` satisfying `pred`, or the end.
  function Until<A>(s: seq<A>, p: nat, pred: A -> bool): (q: nat)
    requires p <= |s|
    ensures p <= q <= |s|
    ensures forall i :: p <= i < q ==> !pred(s[i])
    ensures q == |s| || pred(s[q])
    decreases |s| - p
  {
    if p == |s| || pred(s[p]) then p else Until(s, p + 1, pred)
  }

  /// `Until` is the only stopping point with those properties.
  lemma {:induction false} UntilUnique<A>(s: seq<A>, p: nat, pred: A -> bool, q: nat)
    requires p <= q <= |s|
    requires forall i :: p <= i < q ==> !pred(s[i])
    requires q == |s| || pred(s[q])
    ensures Until(s, p, pred) == q
    decreases |s| - p
  {
    if p < q {
      UntilUnique(s, p + 1, pred, q);
    }
  }

  /// Number of line breaks in `s`.
  function Newlines(s: seq<char>): nat
  {
    if s == [] then 0 else Newlines(s[..|s| - 1]) + (if s[|s| - 1] == '\n' then 1 else 0)
  }

  /// Number of characters of `s[..p]` after its last line break.
  function Column(s: seq<char>, p: nat): nat
    requires p <= |s|
  {
    if p == 0 then 0 else if s[p - 1] == '\n' then 0 else Column(s, p - 1) + 1
  }

  /// The (line, column) position of the character at offset `p`.
  function PosAt(s: seq<char>, p: nat): Position
    requires p <= |s|
  {
    Position(Newlines(s[..p]), Column(s, p))
  }

  /// Consuming one character adds one line for a line break and none for
  /// anything else.
  lemma NewlinesStep(s: seq<char>, p: nat)
    requires p < |s|
    ensures Newlines(s[..p + 1]) == Newlines(s[..p]) + (if s[p] == '\n' then 1 else 0)
  {
    assert s[..p + 1][..p] == s[..p];
  }

  /// `TextReader`: a cursor over characters that counts lines and columns.
  class TextReader {
    const source: seq<char>
    var pos: nat
    var currentLine: nat
    var linePos: nat

    /// The counters agree with the text consumed so far.
    ghost predicate Valid()
      reads this
    {
      pos <= |source| && currentLine == Newlines(source[..pos]) && linePos == Column(source, pos)
    }

    /// `from_vec`: a reader at the start of `v`.
    constructor FromVec(v: seq<char>)
      ensures source == v && pos == 0 && currentLine == 0 && linePos == 0
      ensures Valid()
    {
      source := v;
      pos := 0;
      currentLine := 0;
      linePos := 0;
    }

    /// `curr_pos`: the line and column counters.
    function CurrPos(): (p: Position)
      reads this
      requires Valid()
      ensures p == PosAt(source, pos)
    {
      Position(currentLine, linePos)
    }

    /// `peek`: the next character, without moving.
    function Peek(): (c: Option<char>)
      reads this
      requires Valid()
      ensures c.None? <==> pos == |source|
      ensures c.Some? ==> c.value == source[pos]
    {
      if pos < |source| then Some(source[pos]) else None
    }

    /// `previous`: the character before the cursor, if any.
    function Previous(): (c: Option<char>)
      reads this
      requires Valid()
      ensures c.None? <==> pos == 0
      ensures c.Some? ==> c.value == source[pos - 1]
    {
      if pos >= 1 then Some(source[pos - 1]) else None
    }

    /// `advance`: returns what `Peek` returned and, unless at the end, moves
    /// one character on, starting a new line after a line break.
    method Advance() returns (c: Option<char>)
      requires Valid()
      modifies this
      ensures Valid()
      ensures c == old(Peek())
      ensures c.None? ==> pos == old(pos) && currentLine == old(currentLine) && linePos == old(linePos)
      ensures c.Some? ==> pos == old(pos) + 1 && Previous() == c
      ensures c == Some('\n') ==> currentLine == old(currentLine) + 1 && linePos == 0
      ensures c.Some? && c != Some('\n') ==> currentLine == old(currentLine) && linePos == old(linePos) + 1
    {
      if pos < |source| {
        var ch := source[pos];
        NewlinesStep(source, pos);
        pos := pos + 1;
        linePos := linePos + 1;
        if ch == '\n' {
          currentLine := currentLine + 1;
          linePos := 0;
        }
        c := Some(ch);
      } else {
        c := None;
      }
    }

    /// `advance_if`: advances exactly when the next character satisfies `pred`.
    method AdvanceIf(pred: char -> bool) returns (c: Option<char>)
      requires Valid()
      modifies this
      ensures Valid()
      ensures old(pos) < |source| && pred(source[old(pos)])
        ==> c == Some(source[old(pos)]) && pos == old(pos) + 1
      ensures !(old(pos) < |source| && pred(source[old(pos)]))
        ==> c.None? && pos == old(pos) && currentLine == old(currentLine) && linePos == old(linePos)
    {
      var next := Peek();
      if next.Some? && pred(next.value) {
        c := Advance();
      } else {
        c := None;
      }
    }

    /// `advance_until`: skips characters up to the first one satisfying
    /// `pred`, which is left unconsumed, or to the end.
    method AdvanceUntil(pred: char -> bool)
      requires Valid()
      modifies this
      ensures Valid()
      ensures pos == Until(source, old(pos), pred)
    {
      ghost var start := pos;
      while true
        invariant Valid()
        invariant start <= pos
        invariant forall i :: start <= i < pos ==> !pred(source[i])
        decreases |source| - pos
      {
        var c := AdvanceIf(x => !pred(x));
        if c.None? {
          break;
        }
      }
      UntilUnique(source, start, pred, pos);
    }

    /// `advance_or`: the advanced character, or `err` at the end.
    method AdvanceOr<E>(err: E) returns (r: Checked<char, E>)
      requires Valid()
      modifies this
      ensures Valid()
      ensures old(pos) == |source| ==> r == Failure(err) && pos == old(pos)
      ensures old(pos) < |source| ==> r == Value(source[old(pos)]) && pos == old(pos) + 1
    {
      var c := Advance();
      r := if c.Some? then Value(c.value) else Failure(err);
    }

    /// `peek_or`: the next character, or `err` at the end.
    function PeekOr<E>(err: E): (r: Checked<char, E>)
      reads this
      requires Valid()
      ensures r.Failure? <==> Peek().None?
      ensures r.Failure? ==> r.error == err
      ensures r.Value? ==> r.value == source[pos]
    {
      if pos < |source| then Value(source[pos]) else Failure(err)
    }
  }

  /// `TokenReader`: a cursor over tokens with lookahead by index.
  class TokenReader {
    const tokens: seq<Token>
    var pos: nat

    ghost predicate Valid()
      reads this
    {
      pos <= |tokens|
    }

    /// `from_vec`: a reader at the first token.
    constructor FromVec(v: seq<Token>)
      ensures tokens == v && pos == 0 && Valid()
    {
      tokens := v;
      pos := 0;
    }

    /// `peek_n`: the token `n` places ahead, without moving.
    function PeekN(n: nat): (t: Option<Token>)
      reads this
      requires Valid()
      ensures t.None? <==> pos + n >= |tokens|
      ensures t.Some? ==> t.value == tokens[pos + n]
    {
      if pos + n < |tokens| then Some(tokens[pos + n]) else None
    }

    /// `peek`: `peek_n(0)`.
    function Peek(): (t: Option<Token>)
      reads this
      requires Valid()
      ensures t == PeekN(0)
      ensures t.None? <==> pos == |tokens|
    {
      PeekN(0)
    }

    /// `previous`: the token before the cursor, if any.
    function Previous(): (t: Option<Token>)
      reads this
      requires Valid()
      ensures t.None? <==> pos == 0
      ensures t.Some? ==> t.value == tokens[pos - 1]
    {
      if pos >= 1 then Some(tokens[pos - 1]) else None
    }

    /// `advance`: returns what `Peek` returned and, unless at the end, moves
    /// one token on; afterwards `Previous` is the token returned.
    method Advance() returns (t: Option<Token>)
      requires Valid()
      modifies this
      ensures Valid()
      ensures t == old(Peek())
      ensures t.None? <==> old(pos) == |tokens|
      ensures t.None? ==> pos == old(pos)
      ensures t.Some? ==> pos == old(pos) + 1 && Previous() == t
    {
      if pos < |tokens| {
        t := Some(tokens[pos]);
        pos := pos + 1;
      } else {
        t := None;
      }
    }

    /// `advance_if`: advances exactly when the next token satisfies `pred`.
    method AdvanceIf(pred: Token -> bool) returns (t: Option<Token>)
      requires Valid()
      modifies this
      ensures Valid()
      ensures old(pos) < |tokens| && pred(tokens[old(pos)])
        ==> t == Some(tokens[old(pos)]) && pos == old(pos) + 1
      ensures !(old(pos) < |tokens| && pred(tokens[old(pos)])) ==> t.None? && pos == old(pos)
    {
      var next := Peek();
      if next.Some? && pred(next.value) {
        t := Advance();
      } else {
        t := None;
      }
    }

    /// `advance_until`: skips tokens up to the first one satisfying `pred`,
    /// which is left unconsumed, or to the end.
    method AdvanceUntil(pred: Token -> bool)
      requires Valid()
      modifies this
      ensures Valid()
      ensures pos == Until(tokens, old(pos), pred)
    {
      ghost var start := pos;
      while true
        invariant Valid()
        invariant start <= pos
        invariant forall i :: start <= i < pos ==> !pred(tokens[i])
        decreases |tokens| - pos
      {
        var t := AdvanceIf(x => !pred(x));
        if t.None? {
          break;
        }
      }
      UntilUnique(tokens, start, pred, pos);
    }

    /// `advance_or`: the advanced token, or `err` at the end.
    method AdvanceOr<E>(err: E) returns (r: Checked<Token, E>)
      requires Valid()
      modifies this
      ensures Valid()
      ensures old(pos) == |tokens| ==> r == Failure(err) && pos == old(pos)
      ensures old(pos) < |tokens| ==> r == Value(tokens[old(pos)]) && pos == old(pos) + 1
    {
      var t := Advance();
      r := if t.Some? then Value(t.value) else Failure(err);
    }

    /// `peek_or`: the next token, or `err` at the end.
    function PeekOr<E>(err: E): (r: Checked<Token, E>)
      reads this
      requires Valid()
      ensures r.Failure? <==> Peek().None?
      ensures r.Failure? ==> r.error == err
      ensures r.Value? ==> r.value == tokens[pos]
    {
      if pos < |tokens| then Value(tokens[pos]) else Failure(err)
    }
  }
}
