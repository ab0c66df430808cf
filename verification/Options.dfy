/** A value that may be absent. */
module Options {

  datatype Option<+T> = None | Some(value: T) {
    function GetOr(d: T): T { match this case None => d case Some(v) => v }
  }
}
