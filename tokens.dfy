/// Tokens, their classification from literal text (`tokens.rs`) and the
/// value and punctuation types they carry (`tokens/lox_values.rs`,
/// `tokens/puncts.rs`).
module Tokens {
  import opened Errors
  import Kwds

  /// A value of the language. The source stores an `i32`; arithmetic on it
  /// is exact here (see the README).
  datatype LoxValue = Integer(i: int) | Boolean(b: bool) | String(s: string)

  datatype Punct =
    | LeftParen | RightParen | LeftBrace | RightBrace
    | Comme | Dot | Minus | Plus | Semicolon | Slash | Star
    | Bang | BangEqual | Equal | EqualEqual
    | Greater | GreaterEqual | Less | LessEqual
    | Eof

  datatype Token =
    | PunctToken(punct: Punct, at: Position)
    | KwdToken(kwd: Kwds.Kwd, at: Position)
    | ValueToken(value: LoxValue, at: Position)
    | IdentifierToken(name: string, at: Position)
  {
    /// `Token::pos`: the stored position, whatever the variant.
    function Pos(): (p: Position)
      ensures p == at
    {
      match this
      case PunctToken(_, p) => p
      case KwdToken(_, p) => p
      case ValueToken(_, p) => p
      case IdentifierToken(_, p) => p
    }

    /// `Token::as_punct`: the punctuation of a punctuation token, else a
    /// logic error at the token.
    function AsPunct(): (r: Result<Punct>)
      ensures r.Ok? <==> PunctToken?
      ensures r.Ok? ==> this == PunctToken(r.value, Pos())
      ensures r.Err? ==> r.error.kind == LogicError && r.error.pos == Some(Pos())
    {
      match this
      case PunctToken(p, _) => Ok(p)
      case _ => NewErr("is not lox value", Pos(), LogicError)
    }

    /// `Token::as_lox_value`: the value of a value token, else a logic
    /// error at the token.
    function AsLoxValue(): (r: Result<LoxValue>)
      ensures r.Ok? <==> ValueToken?
      ensures r.Ok? ==> this == ValueToken(r.value, Pos())
      ensures r.Err? ==> r.error.kind == LogicError && r.error.pos == Some(Pos())
    {
      match this
      case ValueToken(v, _) => Ok(v)
      case _ => NewErr("is not lox value", Pos(), LogicError)
    }

    /// `Token::eq_punct`: the token is the punctuation `q`, at any position.
    predicate EqPunct(q: Punct)
    {
      match this
      case PunctToken(p, _) => p == q
      case _ => false
    }
  }

  /// `Tokenizable::at` for a punctuation.
  function At(p: Punct, pos: Position): (t: Token)
    ensures t.EqPunct(p) && t.Pos() == pos
    ensures t.AsPunct() == Ok(p)
  {
    PunctToken(p, pos)
  }

  // ASCII stand-ins for the character classes of `VARIABLE_RE`
  // (`^[a-zA-Z_'][a-zA-Z0-9_']*$`) and `NUMBER_RE` (`[0-9]+`).

  predicate IsDigit(c: char) { '0' <= c <= '9' }

  predicate IsAsciiLetter(c: char) { 'a' <= c <= 'z' || 'A' <= c <= 'Z' }

  predicate IsIdentStart(c: char) { IsAsciiLetter(c) || c == '_' || c == '\'' }

  predicate IsIdentChar(c: char) { IsIdentStart(c) || IsDigit(c) }

  /// The whole string matches `VARIABLE_RE`.
  predicate IsIdentifier(s: string)
  {
    |s| >= 1 && IsIdentStart(s[0]) && forall i :: 1 <= i < |s| ==> IsIdentChar(s[i])
  }

  /// `NUMBER_RE` is not anchored: it matches any string holding a digit.
  predicate ContainsDigit(s: string)
  {
    exists i :: 0 <= i < |s| && IsDigit(s[i])
  }

  predicate AllDigits(s: string)
  {
    forall i :: 0 <= i < |s| ==> IsDigit(s[i])
  }

  /// The number written by the decimal digits of `s`.
  function DigitsValue(s: string): (n: nat)
    requires AllDigits(s)
  {
    if s == [] then 0
    else DigitsValue(s[..|s| - 1]) * 10 + (s[|s| - 1] as int - '0' as int)
  }

  const I32Min: int := -0x8000_0000
  const I32Max: int := 0x7fff_ffff

  /// `str::parse::<i32>`: an optional sign followed by at least one digit,
  /// whose value fits in 32 bits.
  function ParseI32(s: string): (r: Option<int>)
    ensures r.Some? ==> I32Min <= r.value <= I32Max
    ensures r.Some? ==> ContainsDigit(s)
  {
    var signed := |s| > 0 && (s[0] == '+' || s[0] == '-');
    var body := if signed then s[1..] else s;
    if |body| == 0 || !AllDigits(body) then None
    else
      assert IsDigit(s[|s| - 1]);
      var n: int := if signed && s[0] == '-' then 0 - DigitsValue(body) as int else DigitsValue(body) as int;
      if I32Min <= n <= I32Max then Some(n) else None
  }

  /// The string reaches the number branch of `Token::from_string` but is not
  /// an `i32`, so the `expect` there panics.
  predicate NumberPanics(s: string)
  {
    s != "True" && s != "False" && s !in Kwds.Keywords && !IsIdentifier(s)
    && ContainsDigit(s) && ParseI32(s).None?
  }

  predicate IsQuoted(s: string)
  {
    |s| >= 1 && s[0] == '"' && s[|s| - 1] == '"'
  }

  /// `Token::from_string`: classifies a literal buffer in a fixed order:
  /// `True`/`False`, keyword, identifier, number, quoted string, error.
  function FromString(s: string, pos: Position): (r: Result<Token>)
    requires !NumberPanics(s)
    ensures r.Ok? ==> r.value.Pos() == pos && !r.value.PunctToken?
    ensures s == "True" ==> r == Ok(ValueToken(Boolean(true), pos))
    ensures s == "False" ==> r == Ok(ValueToken(Boolean(false), pos))
    ensures (r.Ok? && r.value.KwdToken?) <==> s in Kwds.Keywords
    ensures r.Ok? && r.value.KwdToken? ==> Kwds.From(s, pos) == Ok(r.value.kwd)
    ensures (r.Ok? && r.value.IdentifierToken?)
        <==> s !in Kwds.Keywords && s != "True" && s != "False" && IsIdentifier(s)
    ensures r.Ok? && r.value.IdentifierToken? ==> r.value.name == s
    ensures (r.Ok? && r.value.ValueToken? && r.value.value.Integer?)
        <==> s !in Kwds.Keywords && !IsIdentifier(s) && ContainsDigit(s)
    ensures r.Ok? && r.value.ValueToken? && r.value.value.Integer?
        ==> ParseI32(s) == Some(r.value.value.i)
    ensures (r.Ok? && r.value.ValueToken? && r.value.value.String?)
        <==> s !in Kwds.Keywords && !IsIdentifier(s) && !ContainsDigit(s) && IsQuoted(s)
    ensures r.Ok? && r.value.ValueToken? && r.value.value.String? ==> r.value.value.s == s
    ensures r.Err? <==> s !in Kwds.Keywords && !IsIdentifier(s) && !ContainsDigit(s) && !IsQuoted(s)
    ensures r.Err? ==> r.error.kind == Errors.TokenizingErr && r.error.pos == Some(pos)
  {
    Kwds.IsValidIffFromSucceeds(s, pos);
    if s == "True" then
      Ok(ValueToken(Boolean(true), pos))
    else if s == "False" then
      Ok(ValueToken(Boolean(false), pos))
    else if Kwds.IsValid(s) then
      Ok(KwdToken(Kwds.From(s, pos).value, pos))
    else if IsIdentifier(s) then
      Ok(IdentifierToken(s, pos))
    else if ContainsDigit(s) then
      Ok(ValueToken(Integer(ParseI32(s).value), pos))
    else if IsQuoted(s) then
      Ok(ValueToken(String(s), pos))
    else
      TokenizingError(pos)
  }

  /// `Token::tokenizing_err`.
  function TokenizingError(pos: Position): Result<Token>
  {
    NewErr("Did not understand", pos, Errors.TokenizingErr)
  }

  /// Every keyword also matches the identifier pattern, so it is the order
  /// of the tests in `FromString` that makes it a keyword token.
  lemma KeywordsMatchIdentifierPattern(s: string)
    requires s in Kwds.Keywords
    ensures IsIdentifier(s)
  {
  }

  /// A digit string in range becomes an integer token carrying its value.
  lemma {:induction false} DecimalLiteral(s: string, pos: Position)
    requires |s| >= 1 && AllDigits(s) && DigitsValue(s) <= I32Max
    ensures !NumberPanics(s)
    ensures FromString(s, pos) == Ok(ValueToken(Integer(DigitsValue(s)), pos))
  {
    assert IsDigit(s[0]);
    assert !IsIdentStart(s[0]);
    assert s !in Kwds.Keywords by { if s in Kwds.Keywords { KeywordsMatchIdentifierPattern(s); } }
    assert s != "True" && s != "False" by { assert IsDigit(s[0]); }
  }
}
