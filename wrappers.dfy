/** Failure-carrying values: the model's stand-ins for Python's `None` and for raised exceptions. */
module Wrappers {

  datatype Option<+T> = None | Some(value: T)

  /** A computation that either produced a value or raised an exception whose `str(e)` is `error`. */
  datatype Result<+R> = Success(value: R) | Failure(error: string)
  {
    /** Re-raising with a prefix, as in `raise Exception(f"prefix{e}")`. */
    function Wrap(prefix: string): (r: Result<R>)
      ensures r.Success? <==> this.Success?
      ensures r.Success? ==> r.value == this.value
      ensures r.Failure? ==> r.error == prefix + this.error
    {
      match this
      case Success(v) => Success(v)
      case Failure(e) => Failure(prefix + e)
    }
  }
}
