/// The older cursors `text_reader.rs` and `token_reader.rs`. The token
/// reader here pre-increments: `advance` first moves and then reads, so the
/// token at index 0 is only ever seen through `curr_token`. `parser.rs` embeds
/// a copy of the same token reader, which `Parser` uses through this class.
module LegacyReaders {
  import opened Errors
  import opened Tokens
  import Readers

  /// Where `advance_until_newline` stops when started at `p`: just past the
  /// first line break at or after `p`, or at the end of the text.
  function PastNewline(s: string, p: nat): (q: nat)
    requires p <= |s|
    ensures p <= q <= |s|
    ensures forall i :: p <= i < q - 1 ==> s[i] != '\n'
    ensures (p < q && s[q - 1] == '\n') || (q == |s| && forall i :: p <= i < q ==> s[i] != '\n')
  {
    var k := Readers.Until(s, p, c => c == '\n');
    if k < |s| then k + 1 else k
  }

  /// The older `TextReader`: a bare index into the text.
  class TextReader {
    const source: string
    var pos: nat

    ghost predicate Valid()
      reads this
    {
      pos <= |source|
    }

    /// `new`: a reader at the start of `s`.
    constructor New(s: string)
      ensures source == s && pos == 0 && Valid()
    {
      source := s;
      pos := 0;
    }

    /// `reset`: a reader over the same text, back at the start.
    method Reset() returns (r: TextReader)
      ensures fresh(r) && r.source == source && r.pos == 0 && r.Valid()
    {
      r := new TextReader.New(source);
    }

    /// `back`: one step back, or `None` at the start.
    method Back() returns (r: Option<()>)
      requires Valid()
      modifies this
      ensures Valid()
      ensures r.Some? <==> old(pos) > 0
      ensures r.Some? ==> pos == old(pos) - 1
      ensures r.None? ==> pos == old(pos)
    {
      if pos == 0 {
        r := None;
      } else {
        pos := pos - 1;
        r := Some(());
      }
    }

    /// `advance`: the character at the cursor, moving past it, or `None` at
    /// the end without moving.
    method Advance() returns (c: Option<char>)
      requires Valid()
      modifies this
      ensures Valid()
      ensures c.None? <==> old(pos) == |source|
      ensures c.Some? ==> c.value == source[old(pos)] && pos == old(pos) + 1
      ensures c.None? ==> pos == old(pos)
    {
      if pos < |source| {
        c := Some(source[pos]);
        pos := pos + 1;
      } else {
        c := None;
      }
    }

    /// `advance_until_newline`: consumes up to and including the next line
    /// break, or to the end.
    method AdvanceUntilNewline()
      requires Valid()
      modifies this
      ensures Valid()
      ensures pos == PastNewline(source, old(pos))
    {
      ghost var start := pos;
      while true
        invariant Valid()
        invariant start <= pos
        invariant forall i :: start <= i < pos ==> source[i] != '\n'
        decreases |source| - pos
      {
        var c := Advance();
        if c.None? || c.value == '\n' {
          Readers.UntilUnique(source, start, x => x == '\n', pos - (if c.None? then 0 else 1));
          break;
        }
      }
    }

    /// `get_pos`: the index of the cursor.
    function GetPos(): (p: nat)
      reads this
      requires Valid()
      ensures p <= |source|
    {
      pos
    }
  }

  /// The older pre-incrementing `TokenReader`. Its index is not kept inside
  /// the token vector: `next` may move it past the end.
  class TokenReader {
    const tokens: seq<Token>
    var pos: nat

    /// `new`: a reader at index 0.
    constructor New(ts: seq<Token>)
      ensures tokens == ts && pos == 0
    {
      tokens := ts;
      pos := 0;
    }

    /// `curr_token`: the token at the index, if the index is in range.
    function CurrToken(): (t: Option<Token>)
      reads this
      ensures t.None? <==> pos >= |tokens|
      ensures t.Some? ==> t.value == tokens[pos]
    {
      if pos < |tokens| then Some(tokens[pos]) else None
    }

    /// `pos`.
    function Pos(): (p: nat)
      reads this
      ensures p == pos
    {
      pos
    }

    /// `next`: moves one place on, unconditionally.
    method Next()
      modifies this
      ensures pos == old(pos) + 1
    {
      pos := pos + 1;
    }

    /// `back`: moves one place back. The `usize` subtraction underflows at
    /// index 0, so callers must have moved first.
    method Back()
      requires pos >= 1
      modifies this
      ensures pos == old(pos) - 1
    {
      pos := pos - 1;
    }

    /// `advance`: `next`, then `curr_token`; the first call reads index 1.
    method Advance() returns (t: Option<Token>)
      modifies this
      ensures pos == old(pos) + 1
      ensures t == CurrToken()
      ensures t.Some? <==> old(pos) + 1 < |tokens|
    {
      Next();
      t := CurrToken();
    }

    /// `previous`: the token before the index, or a parsing error when the
    /// index is past the end. The subtraction underflows at index 0.
    function Previous(): (r: Result<Token>)
      reads this
      requires pos >= 1
      ensures r.Ok? <==> pos - 1 < |tokens|
      ensures r.Ok? ==> r.value == tokens[pos - 1]
      ensures r.Err? ==> r.error.kind == ParsingErr && r.error.pos.None?
    {
      if pos - 1 < |tokens| then Ok(tokens[pos - 1])
      else Err(LoxError(ParsingErr, None, "Failed to go back"))
    }
  }
}
