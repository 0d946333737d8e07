/// Error model of the interpreter: every stage fails with a `LoxError`
/// carrying a kind, an optional source position and a message.
module Errors {

  /// A point in the source text: line and column, both counted from 0.
  datatype Position = Position(line: nat, linePos: nat)

  /// The error kinds of the interpreter. `RuntimeError` is used by the scope
  /// stack and the built-ins. `Panic` stands for a Rust panic whose trigger
  /// is run-time data (an `unwrap`, an `expect`, a `panic!`); `OutOfFuel`
  /// stands for a `while` loop that has run longer than the model's bound.
  datatype ErrKind =
    | ParsingErr | EvalErr | TokenizingErr | ScanningErr | LogicError | RuntimeError
    | Panic | OutOfFuel

  datatype LoxError = LoxError(kind: ErrKind, pos: Option<Position>, msg: string)

  datatype Option<+T> = None | Some(value: T)

  /// `LoxResult<A>`: the success value or the error that aborted the stage.
  datatype Result<+T> = Ok(value: T) | Err(error: LoxError) {
    predicate IsFailure() { Err? }

    function PropagateFailure<U>(): Result<U>
      requires Err?
    {
      Err(error)
    }

    function Extract(): T
      requires Ok?
    {
      value
    }
  }

  /// `LoxError::new_err`: a failed result carrying exactly the given message,
  /// kind and position.
  function NewErr<A>(msg: string, pos: Position, kind: ErrKind): (r: Result<A>)
    ensures r.Err? && r.error.msg == msg && r.error.kind == kind && r.error.pos == Some(pos)
  {
    Err(LoxError(kind, Some(pos), msg))
  }

  /// A failed result of the given kind at the given position.
  function Fail<A>(kind: ErrKind, pos: Position, msg: string): Result<A>
  {
    Err(LoxError(kind, Some(pos), msg))
  }

  /// A Rust panic, modelled as an error that aborts the stage.
  function Abort<A>(msg: string): Result<A>
  {
    Err(LoxError(Panic, None, msg))
  }

  /// `generate_err_msg`: the twenty characters around the error's offset
  /// `at` in the text, followed by the error's message. The text is a
  /// sequence of single-byte characters, so character and byte offsets agree;
  /// the slice panics unless it lies inside the text.
  function GenerateErrMsg(e: LoxError, text: string, at: nat): (r: string)
    requires 10 <= at && at + 10 <= |text|
    ensures |r| == 20 + |e.msg|
    ensures forall i :: 0 <= i < 20 ==> r[i] == text[at - 10 + i]
    ensures r[20..] == e.msg
  {
    text[at - 10 .. at + 10] + e.msg
  }
}
