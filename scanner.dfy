/// The scanner (`scanner.rs`): turns the characters of a program into a list
/// of positioned tokens ending in `Eof`, stopping at the first error.
///
/// The functions below describe the scan over a text `src` with the cursor at
/// offset `p`; each returns its result together with the offset at which the
/// cursor is left. The `Scanner` class runs the same steps on a `TextReader`
/// and is proved to agree with them. A token's position is the reader's
/// line and column when its handler starts: for one-character punctuation
/// that is the character itself, for every other token the character after
/// the first one.
module Scanning {
  import opened Errors
  import opened Tokens
  import opened Readers

  /// `is_valid_variable_char`, with ASCII letters and digits standing for
  /// Unicode's alphanumeric characters.
  predicate IsVarChar(c: char)
  {
    IsAsciiLetter(c) || IsDigit(c) || c == '\'' || c == '_' || c == '"'
  }

  predicate IsBlank(c: char)
  {
    c == ' ' || c == '\t' || c == '\n' || c == '\r'
  }

  /// The ten characters that stand for a punctuation token on their own.
  function SingleCharPunct(c: char): (r: Option<Punct>)
    ensures r.Some? ==> r.value != Eof
    ensures r.Some? ==> !IsBlank(c) && !IsVarChar(c)
  {
    match c
    case '(' => Some(LeftParen)
    case ')' => Some(RightParen)
    case '{' => Some(LeftBrace)
    case '}' => Some(RightBrace)
    case ',' => Some(Comme)
    case '.' => Some(Dot)
    case '-' => Some(Minus)
    case '+' => Some(Plus)
    case ';' => Some(Semicolon)
    case '*' => Some(Star)
    case _ => None
  }

  /// `unexpected_eof_err`.
  function UnexpectedEof<A>(pos: Position): Result<A>
  {
    NewErr("expected next character, found end of file", pos, ScanningErr)
  }

  /// `Token::from_string`, with the `expect` on an out-of-range number
  /// turned into a panic.
  function Classify(s: string, pos: Position): (r: Result<Token>)
    ensures NumberPanics(s) ==> r.Err? && r.error.kind == Panic
    ensures !NumberPanics(s) ==> r == FromString(s, pos)
  {
    if NumberPanics(s) then Abort("Failed to parse string as number") else FromString(s, pos)
  }

  /// The shape every step of the scan has: the cursor never moves back or
  /// past the end, `Eof` is produced only at the end of the text and at its
  /// position, and any other token consumes at least one character.
  ghost predicate Step(src: string, p: nat, res: (Result<Token>, nat))
  {
    p <= res.1 <= |src|
    && (res.0.Ok? && res.0.value.EqPunct(Eof) ==> res.1 == |src| && p <= |src| && res.0.value.Pos() == PosAt(src, |src|))
    && (res.0.Ok? && !res.0.value.EqPunct(Eof) ==> p < res.1)
  }

  /// A character `next_token` has no arm for: not punctuation, not an
  /// operator, not blank and not a variable character.
  predicate Unrecognized(c: char)
  {
    && SingleCharPunct(c).None? && c != '!' && c != '=' && c != '<' && c != '>' && c != '/'
    && !IsBlank(c) && !IsVarChar(c)
  }

  /// `next_token` with the cursor at `p`.
  function NextTok(src: string, p: nat): (res: (Result<Token>, nat))
    requires p <= |src|
    ensures Step(src, p, res)
    ensures p == |src| ==> res == (Ok(At(Eof, PosAt(src, p))), p)
    ensures p < |src| && SingleCharPunct(src[p]).Some?
      ==> res == (Ok(At(SingleCharPunct(src[p]).value, PosAt(src, p))), p + 1)
    ensures p < |src| && Unrecognized(src[p])
      ==> && res.0.Err? && res.0.error.kind == ScanningErr && res.0.error.pos == Some(PosAt(src, p))
          && res.1 == p + 1
    decreases |src| - p, 0
  {
    var pos := PosAt(src, p);
    if p == |src| then (Ok(At(Eof, pos)), p)
    else
      var c := src[p];
      var single := SingleCharPunct(c);
      if single.Some? then (Ok(At(single.value, pos)), p + 1)
      else if c == '!' then ScanPeeked(src, p + 1, Bang, BangEqual)
      else if c == '=' then ScanPeeked(src, p + 1, Equal, EqualEqual)
      else if c == '<' then ScanPeeked(src, p + 1, Less, LessEqual)
      else if c == '>' then ScanGr(src, p + 1)
      else if c == '/' then ScanSlash(src, p + 1)
      else if IsBlank(c) then NextTok(src, p + 1)
      else if IsVarChar(c) then ScanLiteral(src, p + 1, c)
      else (NewErr("Unrecognized character", pos, ScanningErr), p + 1)
  }

  /// The operators, blanks and variable characters are passed on: `!`,
  /// `=` and `<` to the peeking handler, `>` and `/` to their own, a blank
  /// to the scan of the next character, and a variable character to
  /// `handle_literal`.
  lemma NextTokDispatch(src: string, p: nat)
    requires p < |src|
    ensures src[p] == '!' ==> NextTok(src, p) == ScanPeeked(src, p + 1, Bang, BangEqual)
    ensures src[p] == '=' ==> NextTok(src, p) == ScanPeeked(src, p + 1, Equal, EqualEqual)
    ensures src[p] == '<' ==> NextTok(src, p) == ScanPeeked(src, p + 1, Less, LessEqual)
    ensures src[p] == '>' ==> NextTok(src, p) == ScanGr(src, p + 1)
    ensures src[p] == '/' ==> NextTok(src, p) == ScanSlash(src, p + 1)
    ensures IsBlank(src[p]) ==> NextTok(src, p) == NextTok(src, p + 1)
    ensures IsVarChar(src[p]) ==> NextTok(src, p) == ScanLiteral(src, p + 1, src[p])
  {
    var c := src[p];
    if c == '!' || c == '=' || c == '<' {
      assert SingleCharPunct(c).None?;
    } else if c == '>' || c == '/' {
      assert SingleCharPunct(c).None?;
    } else if IsBlank(c) {
      assert SingleCharPunct(c).None?;
    } else if IsVarChar(c) {
      assert SingleCharPunct(c).None? && !IsBlank(c);
    }
  }

  /// `handle_bang`, `handle_eq` and `handle_le`: peek at the next character;
  /// `=` makes the two-character token and is consumed, anything else leaves
  /// the one-character token and is not.
  function ScanPeeked(src: string, q: nat, single: Punct, double: Punct): (res: (Result<Token>, nat))
    requires 0 < q <= |src|
    requires single != Eof && double != Eof
    ensures Step(src, q - 1, res)
    ensures q == |src| ==> res.0.Err? && res.0.error.kind == ScanningErr
    ensures q < |src| && src[q] == '=' ==> res == (Ok(At(double, PosAt(src, q))), q + 1)
    ensures q < |src| && src[q] != '=' ==> res == (Ok(At(single, PosAt(src, q))), q)
  {
    var pos := PosAt(src, q);
    if q == |src| then (UnexpectedEof(pos), q)
    else if src[q] == '=' then (Ok(At(double, pos)), q + 1)
    else (Ok(At(single, pos)), q)
  }

  /// `handle_gr`: advances over the next character whatever it is, and once
  /// more after `=`.
  function ScanGr(src: string, q: nat): (res: (Result<Token>, nat))
    requires 0 < q <= |src|
    ensures Step(src, q - 1, res)
    ensures q == |src| ==> res.0.Err? && res.0.error.kind == ScanningErr
    ensures q < |src| && src[q] == '=' ==> res.0 == Ok(At(GreaterEqual, PosAt(src, q))) && res.1 == if q + 1 < |src| then q + 2 else q + 1
    ensures q < |src| && src[q] != '=' ==> res == (Ok(At(Greater, PosAt(src, q))), q + 1)
  {
    var pos := PosAt(src, q);
    if q == |src| then (UnexpectedEof(pos), q)
    else if src[q] == '=' then (Ok(At(GreaterEqual, pos)), if q + 1 < |src| then q + 2 else q + 1)
    else (Ok(At(Greater, pos)), q + 1)
  }

  /// `handle_slash`: advances over the next character; a second `/` starts
  /// a comment, anything else is lost and `Slash` results.
  function ScanSlash(src: string, q: nat): (res: (Result<Token>, nat))
    requires 0 < q <= |src|
    ensures Step(src, q - 1, res)
    ensures q == |src| ==> res.0.Err? && res.0.error.kind == ScanningErr
    ensures q < |src| && src[q] == '/' ==> res == ScanComment(src, q + 1)
    ensures q < |src| && src[q] != '/' ==> res == (Ok(At(Slash, PosAt(src, q))), q + 1)
    decreases |src| - q, 2
  {
    var pos := PosAt(src, q);
    if q == |src| then (UnexpectedEof(pos), q)
    else if src[q] == '/' then ScanComment(src, q + 1)
    else (Ok(At(Slash, pos)), q + 1)
  }

  /// `handle_comment`: skips to just before the next line break, then scans
  /// the next token.
  function ScanComment(src: string, q: nat): (res: (Result<Token>, nat))
    requires q <= |src|
    ensures Step(src, q, res)
    decreases |src| - q, 1
  {
    NextTok(src, Until(src, q, c => c == '\n'))
  }

  /// `handle_literal`.
  function ScanLiteral(src: string, q: nat, first: char): (res: (Result<Token>, nat))
    requires 0 < q <= |src|
    ensures Step(src, q - 1, res)
    ensures res.0.Ok? ==> res.0.value.Pos() == PosAt(src, q)
    ensures first == '"' ==> res == ScanStringLiteral(src, q)
    ensures first != '"' ==> res == ScanVarOrValLiteral(src, q, first)
  {
    if first == '"' then ScanStringLiteral(src, q) else ScanVarOrValLiteral(src, q, first)
  }

  /// Where a string literal whose opening quote precedes `q` ends: just past
  /// the closing quote, or at the end of the text.
  function StringEnd(src: string, q: nat): (e: nat)
    requires q <= |src|
    ensures q <= e <= |src|
  {
    var k := Until(src, q, c => c == '"');
    if k < |src| then k + 1 else k
  }

  /// `handle_string_literal`: the quote and everything through the next
  /// quote, classified by `from_string`, whose failure is unwrapped.
  function ScanStringLiteral(src: string, q: nat): (res: (Result<Token>, nat))
    requires q <= |src|
    ensures res.1 == StringEnd(src, q)
    ensures res.0.Ok? <==> !ContainsDigit(StringBuffer(src, q)) && IsQuoted(StringBuffer(src, q))
    ensures res.0.Ok? ==> res.0.value == ValueToken(String(StringBuffer(src, q)), PosAt(src, q))
    ensures res.0.Err? ==> res.0.error.kind == Panic
  {
    var buffer := StringBuffer(src, q);
    var r := Classify(buffer, PosAt(src, q));
    (if r.Ok? then r else Abort("called `Result::unwrap()` on an `Err` value"), StringEnd(src, q))
  }

  /// The text of a string literal whose opening quote precedes `q`.
  function StringBuffer(src: string, q: nat): (b: string)
    requires q <= |src|
    ensures |b| >= 1 && b[0] == '"'
    ensures forall i :: 1 <= i < |b| - 1 ==> b[i] != '"'
  {
    ['"'] + src[q..StringEnd(src, q)]
  }

  /// `handle_var_or_val_literal`: the first character and the longest run of
  /// variable characters after it, classified by `from_string`.
  function ScanVarOrValLiteral(src: string, q: nat, first: char): (res: (Result<Token>, nat))
    requires q <= |src|
    ensures res.1 == Until(src, q, c => !IsVarChar(c))
    ensures res.0 == Classify([first] + src[q..res.1], PosAt(src, q))
  {
    var e := Until(src, q, c => !IsVarChar(c));
    (Classify([first] + src[q..e], PosAt(src, q)), e)
  }

  /// `Ok(prefix ++ rest)` for a successful scan of the rest, else its error.
  function Prepend(prefix: seq<Token>, r: Result<seq<Token>>): (res: Result<seq<Token>>)
    ensures res.Ok? <==> r.Ok?
    ensures res.Ok? ==> |res.value| == |prefix| + |r.value|
    ensures res.Ok? ==> res.value[..|prefix|] == prefix && res.value[|prefix|..] == r.value
    ensures res.Err? ==> res == r
  {
    if r.Ok? then Ok(prefix + r.value) else r
  }

  /// `scan` with the cursor at `p`: tokens up to and including `Eof`, or
  /// the first error.
  function ScanFrom(src: string, p: nat): (res: Result<seq<Token>>)
    requires p <= |src|
    ensures NextTok(src, p).0.Err? ==> res == Err(NextTok(src, p).0.error)
    ensures res.Ok? ==> |res.value| >= 1 && res.value[0] == NextTok(src, p).0.value
    ensures res.Ok? ==> res.value[|res.value| - 1].EqPunct(Eof)
    decreases |src| - p
  {
    var (r, q) := NextTok(src, p);
    if r.Err? then Err(r.error)
    else if r.value.EqPunct(Eof) then Ok([r.value])
    else Prepend([r.value], ScanFrom(src, q))
  }

  lemma PrependNothing(r: Result<seq<Token>>)
    ensures Prepend([], r) == r
  {
    if r.Ok? {
      assert [] + r.value == r.value;
    }
  }

  lemma PrependAssoc(a: seq<Token>, b: seq<Token>, r: Result<seq<Token>>)
    ensures Prepend(a + b, r) == Prepend(a, Prepend(b, r))
  {
    if r.Ok? {
      assert a + b + r.value == a + (b + r.value);
    }
  }

  /// `scan` of a whole program.
  function Scan(src: string): (res: Result<seq<Token>>)
    ensures res.Ok? ==> var ts := res.value;
      |ts| >= 1 && ts[|ts| - 1].EqPunct(Eof) && ts[|ts| - 1].Pos() == PosAt(src, |src|)
      && forall i :: 0 <= i < |ts| - 1 ==> !ts[i].EqPunct(Eof)
  {
    var r := ScanFrom(src, 0);
    if r.Ok? then
      ScanEndsWithEof(src, 0);
      r
    else r
  }

  /// A successful scan ends with exactly one `Eof`, its last token, placed
  /// at the end of the text.
  lemma {:induction false} ScanEndsWithEof(src: string, p: nat)
    requires p <= |src| && ScanFrom(src, p).Ok?
    ensures var ts := ScanFrom(src, p).value;
      |ts| >= 1 && ts[|ts| - 1].EqPunct(Eof) && ts[|ts| - 1].Pos() == PosAt(src, |src|)
      && forall i :: 0 <= i < |ts| - 1 ==> !ts[i].EqPunct(Eof)
    decreases |src| - p
  {
    var (r, q) := NextTok(src, p);
    if !r.value.EqPunct(Eof) {
      ScanEndsWithEof(src, q);
      var rest := ScanFrom(src, q).value;
      assert ScanFrom(src, p).value == [r.value] + rest;
    }
  }

  /// A failed scan fails with the error of one of its steps: the step taken
  /// from some offset at or after the start.
  lemma {:induction false} ScanErrorIsStepError(src: string, p: nat)
    requires p <= |src| && ScanFrom(src, p).Err?
    ensures exists q :: p <= q <= |src| && NextTok(src, q).0 == Err(ScanFrom(src, p).error)
    decreases |src| - p
  {
    var (r, q) := NextTok(src, p);
    if r.Err? {
      assert NextTok(src, p).0 == Err(ScanFrom(src, p).error);
    } else {
      ScanErrorIsStepError(src, q);
    }
  }

  /// A text whose rest is blank scans to a lone `Eof` at its end.
  lemma {:induction false} BlankRestScansToEof(src: string, p: nat)
    requires p <= |src|
    requires forall i :: p <= i < |src| ==> IsBlank(src[i])
    ensures ScanFrom(src, p) == Ok([At(Eof, PosAt(src, |src|))])
    decreases |src| - p
  {
    if p < |src| {
      BlankRestScansToEof(src, p + 1);
      assert IsBlank(src[p]);
    }
  }

  /// `Scanner`: a text reader and the methods that consume it.
  class Scanner {
    const reader: TextReader

    ghost predicate Valid()
      reads this, reader
    {
      reader.Valid()
    }

    /// `Scanner::new`.
    constructor New(source: string)
      ensures fresh(reader) && reader.source == source && reader.pos == 0 && Valid()
    {
      reader := new TextReader.FromVec(source);
    }

    /// `scan`: pushes tokens until `Eof`; the first error aborts.
    method Scan() returns (r: Result<seq<Token>>)
      requires Valid()
      modifies reader
      ensures r == ScanFrom(reader.source, old(reader.pos))
    {
      ghost var src := reader.source;
      var tokens: seq<Token> := [];
      PrependNothing(ScanFrom(src, reader.pos));
      while true
        invariant Valid()
        invariant ScanFrom(src, old(reader.pos)) == Prepend(tokens, ScanFrom(src, reader.pos))
        decreases |src| - reader.pos
      {
        ghost var before := reader.pos;
        var next := NextToken();
        if next.Err? {
          r := Err(next.error);
          return;
        }
        var t := next.value;
        var isEof := t.EqPunct(Eof);
        PrependAssoc(tokens, [t], ScanFrom(src, reader.pos));
        tokens := tokens + [t];
        if isEof {
          break;
        }
      }
      r := Ok(tokens);
    }

    /// `next_token`.
    method NextToken() returns (r: Result<Token>)
      requires Valid()
      modifies reader
      ensures Valid()
      ensures (r, reader.pos) == NextTok(reader.source, old(reader.pos))
      decreases |reader.source| - reader.pos, 0
    {
      var pos := reader.CurrPos();
      var c := reader.Advance();
      if c.None? {
        r := Ok(At(Eof, pos));
        return;
      }
      var ch := c.value;
      var single := SingleCharPunct(ch);
      if single.Some? {
        r := Ok(At(single.value, pos));
      } else if ch == '!' {
        r := HandlePeeked(Bang, BangEqual);
      } else if ch == '=' {
        r := HandlePeeked(Equal, EqualEqual);
      } else if ch == '<' {
        r := HandlePeeked(Less, LessEqual);
      } else if ch == '>' {
        r := HandleGr();
      } else if ch == '/' {
        r := HandleSlash();
      } else if IsBlank(ch) {
        r := NextToken();
      } else if IsVarChar(ch) {
        r := HandleLiteral(ch);
      } else {
        r := NewErr("Unrecognized character", pos, ScanningErr);
      }
    }

    /// `handle_bang`, `handle_eq`, `handle_le`.
    method HandlePeeked(single: Punct, double: Punct) returns (r: Result<Token>)
      requires Valid() && 0 < reader.pos
      requires single != Eof && double != Eof
      modifies reader
      ensures Valid()
      ensures (r, reader.pos) == ScanPeeked(reader.source, old(reader.pos), single, double)
    {
      var pos := reader.CurrPos();
      var c := reader.Peek();
      if c.None? {
        r := UnexpectedEof(pos);
      } else if c.value == '=' {
        var _ := reader.Advance();
        r := Ok(At(double, pos));
      } else {
        r := Ok(At(single, pos));
      }
    }

    /// `handle_gr`.
    method HandleGr() returns (r: Result<Token>)
      requires Valid() && 0 < reader.pos
      modifies reader
      ensures Valid()
      ensures (r, reader.pos) == ScanGr(reader.source, old(reader.pos))
    {
      var pos := reader.CurrPos();
      var c := reader.Advance();
      if c.None? {
        r := UnexpectedEof(pos);
      } else if c.value == '=' {
        var _ := reader.Advance();
        r := Ok(At(GreaterEqual, pos));
      } else {
        r := Ok(At(Greater, pos));
      }
    }

    /// `handle_slash`.
    method HandleSlash() returns (r: Result<Token>)
      requires Valid() && 0 < reader.pos
      modifies reader
      ensures Valid()
      ensures (r, reader.pos) == ScanSlash(reader.source, old(reader.pos))
      decreases |reader.source| - reader.pos, 2
    {
      var pos := reader.CurrPos();
      var c := reader.Advance();
      if c.None? {
        r := UnexpectedEof(pos);
      } else if c.value == '/' {
        r := HandleComment();
      } else {
        r := Ok(At(Slash, pos));
      }
    }

    /// `handle_comment`.
    method HandleComment() returns (r: Result<Token>)
      requires Valid()
      modifies reader
      ensures Valid()
      ensures (r, reader.pos) == ScanComment(reader.source, old(reader.pos))
      decreases |reader.source| - reader.pos, 1
    {
      reader.AdvanceUntil(c => c == '\n');
      r := NextToken();
    }

    /// `handle_literal`.
    method HandleLiteral(first: char) returns (r: Result<Token>)
      requires Valid() && 0 < reader.pos
      modifies reader
      ensures Valid()
      ensures (r, reader.pos) == ScanLiteral(reader.source, old(reader.pos), first)
    {
      if first == '"' {
        r := HandleStringLiteral();
      } else {
        r := HandleVarOrValLiteral(first);
      }
    }

    /// `handle_string_literal`: grows the buffer through the closing quote.
    method HandleStringLiteral() returns (r: Result<Token>)
      requires Valid()
      modifies reader
      ensures Valid()
      ensures (r, reader.pos) == ScanStringLiteral(reader.source, old(reader.pos))
    {
      var pos := reader.CurrPos();
      var buffer := ['"'];
      ghost var start := reader.pos;
      while true
        invariant Valid()
        invariant start <= reader.pos
        invariant buffer == ['"'] + reader.source[start..reader.pos]
        invariant forall i :: start <= i < reader.pos ==> reader.source[i] != '"'
        decreases |reader.source| - reader.pos
      {
        var c := reader.Advance();
        if c.None? {
          UntilUnique(reader.source, start, x => x == '"', reader.pos);
          break;
        }
        buffer := buffer + [c.value];
        if c.value == '"' {
          UntilUnique(reader.source, start, x => x == '"', reader.pos - 1);
          break;
        }
      }
      assert buffer == StringBuffer(reader.source, start);
      var t := Classify(buffer, pos);
      r := if t.Ok? then t else Abort("called `Result::unwrap()` on an `Err` value");
    }

    /// `handle_var_or_val_literal`: grows the buffer while the next
    /// character is a variable character.
    method HandleVarOrValLiteral(first: char) returns (r: Result<Token>)
      requires Valid()
      modifies reader
      ensures Valid()
      ensures (r, reader.pos) == ScanVarOrValLiteral(reader.source, old(reader.pos), first)
    {
      var pos := reader.CurrPos();
      var buffer := [first];
      ghost var start := reader.pos;
      while true
        invariant Valid()
        invariant start <= reader.pos
        invariant buffer == [first] + reader.source[start..reader.pos]
        invariant forall i :: start <= i < reader.pos ==> IsVarChar(reader.source[i])
        decreases |reader.source| - reader.pos
      {
        var c := reader.Peek();
        if c.None? || !IsVarChar(c.value) {
          break;
        }
        var _ := reader.Advance();
        buffer := buffer + [c.value];
      }
      UntilUnique(reader.source, start, x => !IsVarChar(x), reader.pos);
      r := Classify(buffer, pos);
    }
  }
}
