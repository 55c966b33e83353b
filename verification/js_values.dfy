/** Values of the TypeScript object types that both modelled components share. */
module JsValues {

  /** A value that may be absent: an optional (`?:`) field left `undefined`. */
  datatype Option<+T> = None | Some(value: T) {

    /** The value when present, `default` otherwise, as a destructuring default `x = default` gives. */
    function GetOr(default: T): T
    {
      match this
      case Some(v) => v
      case None => default
    }
  }

  /** The fields of an object that a component copies with a spread without
      looking at them, by key. */
  type Fields = map<string, string>
}
