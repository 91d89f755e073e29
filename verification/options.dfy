/** An optional value: a field that is missing, `null` or `undefined` in a
    stored document, or an external call that did not produce a value. */
module Options {

  datatype Option<+T> = None | Some(value: T) {

    /** The carried value, or `default` when there is none. */
    function GetOr(default: T): T
    {
      match this
      case Some(v) => v
      case None => default
    }
  }
}
