/// Keywords of the language (`tokens/kwds.rs`).
module Kwds {
  import opened Errors

  datatype Kwd =
    | And | Class | Else | False | Fun | For | If | Nil | Or
    | Print | Return | Super | This | True | Var | While
    | Comment(text: string)

  /// The twelve strings `Kwd::from` accepts.
  const Keywords: set<string> :=
    {"and", "class", "else", "fun", "for", "if", "print", "return", "super", "this", "var", "while"}

  /// `Kwd::from`: the keyword spelled by `s`, or a scanning error at `pos`.
  function From(s: string, pos: Position): (r: Result<Kwd>)
    ensures r.Ok? <==> s in Keywords
    ensures r.Err? ==> r.error.kind == ScanningErr && r.error.pos == Some(pos)
  {
    match s
    case "and" => Ok(And)
    case "class" => Ok(Class)
    case "else" => Ok(Else)
    case "fun" => Ok(Fun)
    case "for" => Ok(For)
    case "if" => Ok(If)
    case "print" => Ok(Print)
    case "return" => Ok(Return)
    case "super" => Ok(Super)
    case "this" => Ok(This)
    case "var" => Ok(Var)
    case "while" => Ok(While)
    case _ => Fail(ScanningErr, pos, "Could not create keyword token")
  }

  /// `Kwd::is_valid`: whether `From` accepts `s` (tried at position (0, 0)).
  predicate IsValid(s: string)
    ensures IsValid(s) <==> s in Keywords
  {
    From(s, Position(0, 0)).Ok?
  }

  /// The position given to `From` only decides where the error is reported.
  lemma FromIgnoresPosition(s: string, p: Position, q: Position)
    ensures From(s, p).Ok? <==> From(s, q).Ok?
    ensures From(s, p).Ok? ==> From(s, p).value == From(s, q).value
  {
  }

  /// `IsValid` holds exactly for the twelve keywords, whatever position
  /// `From` is later called with.
  lemma IsValidIffFromSucceeds(s: string, pos: Position)
    ensures IsValid(s) <==> From(s, pos).Ok?
    ensures IsValid(s) <==> s in Keywords
  {
  }

  /// The variants `False`, `Nil`, `Or`, `True` and `Comment` are never
  /// produced: `true`, `false`, `nil` and `or` are not keywords here.
  lemma NeverProduced(s: string, pos: Position)
    requires From(s, pos).Ok?
    ensures From(s, pos).value !in {False, Nil, Or, True}
    ensures !From(s, pos).value.Comment?
  {
  }

  /// Distinct accepted strings give distinct keywords.
  lemma FromInjective(s: string, t: string, pos: Position)
    requires From(s, pos).Ok? && From(t, pos).Ok?
    requires From(s, pos).value == From(t, pos).value
    ensures s == t
  {
  }
}
