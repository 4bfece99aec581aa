/** JSON-shaped data as the dashboard's browser code and its Python backend exchange it. */
module Json {

  datatype Option<+T> = None | Some(value: T)

  /** The outcome of an operation that may raise: `Err` carries the exception's class or message. */
  datatype Result<+T> = Ok(value: T) | Err(message: string)

  /** A JSON value. `Undefined` is what JavaScript yields when a missing property is read;
      it never occurs inside a parsed response. Numbers are integers: every count the
      dashboard handles is one. */
  datatype Value =
    | Undefined
    | Null
    | Bool(b: bool)
    | Num(n: int)
    | Str(s: string)
    | Arr(items: seq<Value>)
    | Obj(fields: map<string, Value>)
}
