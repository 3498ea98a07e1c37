/**
 * The PHP values the library passes around: the arrays that every `toArray`
 * returns, the arguments of the expression builder, and the decoded JSON tree
 * of a response. A PHP array is either a list (keys 0..n-1) or an ordered map;
 * `List([])` and `Map([])` both stand for PHP's empty array `[]`, and the model
 * uses the one that matches the array's role. Floats are not modelled.
 */
module Php {

  datatype Option<+T> = None | Some(value: T) {
    function GetOr(default: T): T {
      match this
      case Some(v) => v
      case None => default
    }
  }

  /** The exceptions the modelled code raises. */
  datatype Error =
    | UndefinedFieldName(name: string)   // InvalidArgumentException 'Undefined field name: "%s"'
    | UndefinedMethod(name: string)      // BadMethodCallException 'Undefined method called: "%s"'
    | ConfigurationError(message: string) // ConfigurationException
    | MissingArgument(keys: seq<string>) // MissingArgumentException carrying the key list
    | TypeError                          // a PHP TypeError/Error raised by the engine

  datatype Result<+T> = Ok(value: T) | Err(error: Error)

  datatype Outcome = Pass | Fail(error: Error)

  datatype Value =
    | Null
    | Bool(b: bool)
    | Int(i: int)
    | Str(s: string)
    | List(items: seq<Value>)
    | Map(entries: seq<(string, Value)>)
    | Obj(props: seq<(string, Value)>)

  /** PHP's `empty()`: null, false, 0, "", "0" and the empty array. */
  predicate Empty(v: Value) {
    match v
    case Null => true
    case Bool(b) => !b
    case Int(i) => i == 0
    case Str(s) => s == "" || s == "0"
    case List(items) => items == []
    case Map(entries) => entries == []
    case Obj(_) => false
  }

  /** Truthiness of an optional string argument (`$operator && ...`). */
  predicate TruthyString(s: Option<string>) {
    s.Some? && !Empty(Str(s.value))
  }

  /** An ordered map entry list with a key/value pair appended. */
  function With(entries: seq<(string, Value)>, key: string, v: Value): seq<(string, Value)> {
    entries + [(key, v)]
  }

  /** Appends `key => v` only when `v` is present (the `if (!is_null(...))` insertions). */
  function WithOptional(entries: seq<(string, Value)>, key: string, v: Option<Value>): seq<(string, Value)> {
    if v.Some? then entries + [(key, v.value)] else entries
  }

  function OptionalStr(s: Option<string>): Option<Value> {
    if s.Some? then Some(Str(s.value)) else None
  }
}
