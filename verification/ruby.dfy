/** The Ruby values that `Formtastic::Label#label` reads from its arguments
    and options, with Ruby's notion of truthiness and `to_s`. */
module Ruby {

  /** A Ruby Symbol used as a hash key (`:label`, `:required`, ...), by name. */
  type Key = string

  /** A value that may be missing, such as the reading of a key a Hash does
      not hold. */
  datatype Option<+T> = None | Some(value: T) {

    /** What is held, falling back to `default` when nothing is. */
    function GetOr(default: T): T {
      match this
      case Some(v) => v
      case None => default
    }
  }

  /** A Ruby computation either returns a value or raises. */
  datatype Result<+T> = Ok(value: T) | Raise(message: string)

  /** The Ruby values the label helper distinguishes. A `Proc` is a deferred,
      side-effect-free computation that yields a fixed string when called;
      `Other` stands for any object not otherwise listed (a number, an
      array, ...) and carries its `to_s`. */
  datatype Value =
    | Nil
    | Bool(b: bool)
    | Str(s: string)
    | Sym(name: string)
    | Proc(result: string)
    | Hash(entries: seq<Entry>)
    | Other(repr: string)

  /** One key/value pair of a Ruby Hash; a Hash is the sequence of its pairs
      in insertion order. */
  datatype Entry = Entry(key: Key, value: Value)

  /** Ruby truthiness: only `nil` and `false` are falsy. */
  predicate Truthy(v: Value) {
    !(v.Nil? || (v.Bool? && !v.b))
  }

  /** `Object#to_s`. A Hash or Proc prints as its inspection, which `inspect`
      supplies. */
  function ToS(v: Value, inspect: Value -> string): string {
    match v
    case Nil => ""
    case Bool(b) => if b then "true" else "false"
    case Str(s) => s
    case Sym(name) => name
    case Other(repr) => repr
    case Proc(_) => inspect(v)
    case Hash(_) => inspect(v)
  }
}
