/** Small value types shared by the whole model. */
module Common {

  /** Python's `None` or a present value. */
  datatype Option<+T> = None | Some(value: T)
  {
    /** The value, or `default` when absent. */
    function GetOr(default: T): T
    {
      match this
      case Some(v) => v
      case None => default
    }
  }

  /** A raised Python object: the name of its class and its message. Whether it
      derives from `Exception` is recorded by the outcome that carries it. */
  datatype Throwable = Throwable(kind: string, message: string)
}
