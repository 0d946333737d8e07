/// The scanner of `scanner.rs` with `>` and `/` handled as `!`, `=` and `<`
/// are: the character after the operator is peeked at and consumed only when
/// it completes a two-character token (`>=`, or `//` opening a comment).
/// Everything else is the scan of `Scanning`.
module CorrectedScanning {
  import opened Errors
  import opened Tokens
  import opened Readers
  import opened Scanning

  /// `next_token` with peeking `>` and `/`.
  function CNextTok(src: string, p: nat): (res: (Result<Token>, nat))
    requires p <= |src|
    ensures Step(src, p, res)
    decreases |src| - p, 0
  {
    var pos := PosAt(src, p);
    if p == |src| then (Ok(At(Eof, pos)), p)
    else
      var c := src[p];
      var single := SingleCharPunct(c);
      if single.Some? then (Ok(At(single.value, pos)), p + 1)
      else if c == '!' then ScanPeeked(src, p + 1, Bang, BangEqual)
      else if c == '=' then ScanPeeked(src, p + 1, Equal, EqualEqual)
      else if c == '<' then ScanPeeked(src, p + 1, Less, LessEqual)
      else if c == '>' then ScanPeeked(src, p + 1, Greater, GreaterEqual)
      else if c == '/' then CScanSlash(src, p + 1)
      else if IsBlank(c) then CNextTok(src, p + 1)
      else if IsVarChar(c) then ScanLiteral(src, p + 1, c)
      else (NewErr("Unrecognized character", pos, ScanningErr), p + 1)
  }

  /// `/`: a second `/` starts a comment and is consumed; anything else is
  /// left for the next token.
  function CScanSlash(src: string, q: nat): (res: (Result<Token>, nat))
    requires 0 < q <= |src|
    ensures Step(src, q - 1, res)
    ensures q == |src| ==> res.0.Err? && res.0.error.kind == ScanningErr
    ensures q < |src| && src[q] == '/' ==> res == CScanComment(src, q + 1)
    ensures q < |src| && src[q] != '/' ==> res == (Ok(At(Slash, PosAt(src, q))), q)
    decreases |src| - q, 2
  {
    var pos := PosAt(src, q);
    if q == |src| then (UnexpectedEof(pos), q)
    else if src[q] == '/' then CScanComment(src, q + 1)
    else (Ok(At(Slash, pos)), q)
  }

  /// A comment runs to the next line break; then the next token.
  function CScanComment(src: string, q: nat): (res: (Result<Token>, nat))
    requires q <= |src|
    ensures Step(src, q, res)
    decreases |src| - q, 1
  {
    CNextTok(src, Until(src, q, c => c == '\n'))
  }

  /// `scan` from offset `p` with the corrected steps.
  function CScanFrom(src: string, p: nat): (res: Result<seq<Token>>)
    requires p <= |src|
    ensures CNextTok(src, p).0.Err? ==> res == Err(CNextTok(src, p).0.error)
    ensures res.Ok? ==> |res.value| >= 1 && res.value[0] == CNextTok(src, p).0.value
    ensures res.Ok? ==> res.value[|res.value| - 1].EqPunct(Eof)
    decreases |src| - p
  {
    var (r, q) := CNextTok(src, p);
    if r.Err? then Err(r.error)
    else if r.value.EqPunct(Eof) then Ok([r.value])
    else Prepend([r.value], CScanFrom(src, q))
  }

  /// As written: after `>` the next character is consumed whatever it is,
  /// so the scan goes on two characters later and that character is lost.
  lemma GreaterSkipsNext(src: string, p: nat)
    requires p + 1 < |src| && src[p] == '>' && src[p + 1] != '='
    ensures ScanFrom(src, p) == Prepend([At(Greater, PosAt(src, p + 1))], ScanFrom(src, p + 2))
  {
    assert SingleCharPunct(src[p]).None?;
  }

  /// As written: after `/` the next character is consumed whatever it is.
  lemma SlashSkipsNext(src: string, p: nat)
    requires p + 1 < |src| && src[p] == '/' && src[p + 1] != '/'
    ensures ScanFrom(src, p) == Prepend([At(Slash, PosAt(src, p + 1))], ScanFrom(src, p + 2))
  {
    assert SingleCharPunct(src[p]).None?;
    assert ScanSlash(src, p + 1) == (Ok(At(Slash, PosAt(src, p + 1))), p + 2);
    assert NextTok(src, p) == ScanSlash(src, p + 1);
  }

  /// Corrected: the character after `>` starts the next token.
  lemma CGreaterKeepsNext(src: string, p: nat)
    requires p + 1 < |src| && src[p] == '>' && src[p + 1] != '='
    ensures CScanFrom(src, p) == Prepend([At(Greater, PosAt(src, p + 1))], CScanFrom(src, p + 1))
  {
    assert SingleCharPunct(src[p]).None?;
  }

  /// Corrected: the character after `/` starts the next token.
  lemma CSlashKeepsNext(src: string, p: nat)
    requires p + 1 < |src| && src[p] == '/' && src[p + 1] != '/'
    ensures CScanFrom(src, p) == Prepend([At(Slash, PosAt(src, p + 1))], CScanFrom(src, p + 1))
  {
    assert SingleCharPunct(src[p]).None?;
    assert CScanSlash(src, p + 1) == (Ok(At(Slash, PosAt(src, p + 1))), p + 1);
    assert CNextTok(src, p) == CScanSlash(src, p + 1);
  }

  /// The text `>(`: the source's scan loses the bracket, the corrected scan
  /// keeps it.
  lemma GreaterParenWitness()
    ensures Scan(">(") == Ok([At(Greater, PosAt(">(", 1)), At(Eof, PosAt(">(", 2))])
    ensures CScanFrom(">(", 0)
         == Ok([At(Greater, PosAt(">(", 1)), At(LeftParen, PosAt(">(", 1)), At(Eof, PosAt(">(", 2))])
  {
    var src := ">(";
    var g, l, e := At(Greater, PosAt(src, 1)), At(LeftParen, PosAt(src, 1)), At(Eof, PosAt(src, 2));
    GreaterSkipsNext(src, 0);
    assert ScanFrom(src, 2) == Ok([e]);
    assert [g] + [e] == [g, e];
    CGreaterKeepsNext(src, 0);
    assert SingleCharPunct(src[1]) == Some(LeftParen);
    assert CNextTok(src, 1) == (Ok(l), 2);
    assert CScanFrom(src, 2) == Ok([e]);
    assert !l.EqPunct(Eof);
    assert CScanFrom(src, 1) == Prepend([l], CScanFrom(src, 2));
    assert [l] + [e] == [l, e];
    assert [g] + [l, e] == [g, l, e];
  }
}
