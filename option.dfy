/** The optional value used throughout the model: `None` stands for PHP's `false` or `null` returned
    where a function has nothing to give back. */
module Optional {

  datatype Option<+T> = None | Some(value: T) {

    /** The value, or `default` when there is none. */
    function GetOr(default: T): T
    {
      match this
      case Some(v) => v
      case None => default
    }
  }
}
