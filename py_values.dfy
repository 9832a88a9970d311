/** The small slice of Python 2 values that the flask-celery glue reads and
    writes: option attributes, keyword arguments and task attributes.  */
module PyValues {

  /** The builtin types the option translator can put in place of a type name. */
  datatype PyType = IntType | FloatType | StrType

  /** A Python value as far as the glue can tell values apart.  `Callable`
      stands for a user function (compared by identity, here its `id`);
      `CallbackAction` is the argparse action class that replaces an optparse
      callback, and it remembers what it will call and with which arguments. */
  datatype Value =
    | NoneValue
    | Bool(b: bool)
    | Int(i: int)
    | Str(s: string)
    | TypeObject(t: PyType)
    | Tuple(items: seq<Value>)
    | List(items: seq<Value>)
    | Dict(entries: map<string, Value>)
    | Callable(id: nat)
    | CallbackAction(callback: Value, args: Value, kwargs: Value)

  /** The exceptions the glue can raise on its own account. */
  datatype Error = KeyError(key: string) | TypeError

  datatype Result<T> = Ok(value: T) | Err(error: Error)

  /** Python truth testing: None, False, zero and empty containers are false;
      everything else (types, functions, classes) is true. */
  predicate Truthy(v: Value)
  {
    match v
    case NoneValue => false
    case Bool(b) => b
    case Int(i) => i != 0
    case Str(s) => s != ""
    case Tuple(items) => items != []
    case List(items) => items != []
    case Dict(entries) => entries != map[]
    case TypeObject(_) => true
    case Callable(_) => true
    case CallbackAction(_, _, _) => true
  }

  /** Whether `hash(v)` succeeds: lists and dicts are unhashable, and so is a
      tuple that holds one. */
  predicate Hashable(v: Value)
  {
    match v
    case List(_) => false
    case Dict(_) => false
    case Tuple(items) => forall i :: 0 <= i < |items| ==> Hashable(items[i])
    case _ => true
  }

  /** The value of the Python expression `v or fallback`. */
  function Or(v: Value, fallback: Value): Value
  {
    if Truthy(v) then v else fallback
  }

  /** `d.get(key, default)` on a string-keyed dictionary. */
  function Get(d: map<string, Value>, key: string, default: Value): Value
  {
    if key in d then d[key] else default
  }
}
