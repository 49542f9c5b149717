/** Python-level vocabulary shared by the model: optional values, the
    exceptions the scripts raise, dynamically typed configuration values
    and Python's truthiness rule. */
module Python {

  datatype Option<T> = None | Some(value: T)

  /** The built-in exceptions that the modelled code raises or lets escape. */
  datatype PyError =
    | ValueError(message: string)
    | KeyError(key: int)
    | TypeError(message: string)

  /** A call that either returns a value or raises. */
  datatype Result<T> = Ok(value: T) | Err(error: PyError)

  /** A value stored in a configuration dict. `Object` stands for anything
      else (a callable, an enum member, a container), identified by an
      opaque tag and carrying its own truth value, since containers are
      false when empty and other objects may define `__bool__`. */
  datatype Value =
    | NoneValue
    | Bool(b: bool)
    | Int(i: int)
    | Str(s: string)
    | Float(r: real)
    | Object(tag: nat, truthy: bool)

  /** Python's truth value of `v`, as used by `if v:` and `not v`. */
  predicate Truthy(v: Value)
  {
    match v
    case NoneValue => false
    case Bool(b) => b
    case Int(i) => i != 0
    case Str(s) => s != ""
    case Float(r) => r != 0.0
    case Object(_, truthy) => truthy
  }

  /** `v` used as an integer operand of `*`: a bool counts as 0 or 1,
      anything else is not an integer. */
  function AsInt(v: Value): (r: Option<int>)
    ensures r.Some? <==> v.Int? || v.Bool?
    ensures v.Int? ==> r == Some(v.i)
    ensures v.Bool? ==> r == Some(if v.b then 1 else 0)
  {
    match v
    case Int(i) => Some(i)
    case Bool(b) => Some(if b then 1 else 0)
    case _ => None
  }

  /** A numpy vector of floats, by its elements. */
  type Vec = seq<real>
}
