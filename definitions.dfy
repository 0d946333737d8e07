/// `execute/definitions.rs`: the run-time objects a name can be bound to,
/// and their conversions. `LoxObj` is the boxed `RawLoxObject`.
module Definitions {
  import opened Errors
  import opened Tokens
  import opened Structure

  /// `RawLoxObject`: a value, a function, or a class (which carries nothing
  /// yet).
  datatype RawLoxObject = Plain(value: LoxValue) | Fun(def: FunctionDefinition) | Class

  /// `LoxObj`.
  datatype LoxObj = LoxObj(ptr: RawLoxObject)

  /// `RawLoxObject::to_string` panics on a class; error messages that
  /// render an object inherit that panic.
  predicate RenderPanics(raw: RawLoxObject)
  {
    raw.Class?
  }

  /// `From<LoxValue> for LoxObj`.
  function FromValue(v: LoxValue): (o: LoxObj)
    ensures o.ptr.Plain? && ToValue(o) == Some(v)
  {
    LoxObj(Plain(v))
  }

  /// `From<FunctionDefinition> for LoxObj`.
  function FromFun(def: FunctionDefinition): (o: LoxObj)
    ensures AsFun(o) == Some(def) && ToValue(o).None?
  {
    LoxObj(Fun(def))
  }

  /// `to_value` and `From<LoxObj> for Option<LoxValue>`: the value of a
  /// plain object.
  function ToValue(o: LoxObj): (r: Option<LoxValue>)
    ensures r.Some? <==> o.ptr.Plain?
    ensures r.Some? ==> o == LoxObj(Plain(r.value))
  {
    match o.ptr
    case Plain(v) => Some(v)
    case _ => None
  }

  /// `From<LoxObj> for Option<FunctionDefinition>`.
  function AsFun(o: LoxObj): (r: Option<FunctionDefinition>)
    ensures r.Some? <==> o.ptr.Fun?
    ensures r.Some? ==> o == LoxObj(Fun(r.value))
  {
    match o.ptr
    case Fun(d) => Some(d)
    case _ => None
  }

  /// `bool::from(LoxValue)`, whose definition is not part of this model:
  /// a non-zero integer, a non-empty string, or the boolean itself.
  predicate Truthy(v: LoxValue)
  {
    match v
    case Integer(i) => i != 0
    case Boolean(b) => b
    case String(s) => s != []
  }

  /// `From<LoxObj> for Option<bool>`: the truth of a plain value, nothing
  /// for functions and classes.
  function AsBool(o: LoxObj): (r: Option<bool>)
    ensures r.Some? <==> ToValue(o).Some?
    ensures r.Some? ==> r.value == Truthy(ToValue(o).value)
  {
    Transform(o, (raw: RawLoxObject) => if raw.Plain? then Some(Truthy(raw.value)) else None)
  }

  /// `apply`: `f` on the raw object, rewrapped on success.
  function Apply(o: LoxObj, f: RawLoxObject -> Result<RawLoxObject>): (r: Result<LoxObj>)
    ensures r.Ok? <==> f(o.ptr).Ok?
    ensures r.Ok? ==> r.value.ptr == f(o.ptr).value
    ensures r.Err? ==> r.error == f(o.ptr).error
  {
    var raw :- f(o.ptr);
    Ok(LoxObj(raw))
  }

  /// `transform`: `f` on the raw object.
  function Transform<A>(o: LoxObj, f: RawLoxObject -> A): (r: A)
    ensures r == f(o.ptr)
  {
    f(o.ptr)
  }

  /// `From<&RawLoxObject> for LoxObj`: a copy of a value or a function; a
  /// class panics.
  function FromRaw(raw: RawLoxObject): (o: LoxObj)
    requires !raw.Class?
    ensures o.ptr == raw
  {
    match raw
    case Fun(d) => FromFun(d)
    case Plain(v) => FromValue(v)
  }

  /// Wrapping a value and taking it out again gives the value back, and an
  /// object with a value is the wrapping of that value.
  lemma ValueRoundTrip(v: LoxValue, o: LoxObj)
    ensures ToValue(FromValue(v)) == Some(v)
    ensures ToValue(o).Some? ==> FromValue(ToValue(o).value) == o
  {
  }
}
