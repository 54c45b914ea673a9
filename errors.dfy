/**
 * The error kinds the client library raises, and the Option/Result
 * wrappers that carry them through the model.
 */
module Errors {

  datatype Option<T> = None | Some(value: T)

  /**
   * What a call raises.
   *  - HttpError: SnykHTTPError, a reply whose status is not ok (400 and above).
   *  - NotFound: SnykNotFoundError, a get/first that found nothing.
   *  - NotImplemented: SnykNotImplementedError, an operation a manager does not support.
   *  - SnykError: the library's generic error (unknown manager kind, missing scope, bad tag, ...).
   *  - KeyError, IndexError: Python's own, from indexing a decoded reply.
   *  - TypeError: Python's TypeError or AttributeError, from a reply of the wrong shape
   *    (calling .get on a list, indexing a string with a string, ...).
   */
  datatype Error =
    | HttpError(status: int)
    | NotFound
    | NotImplemented
    | SnykError(message: string)
    | KeyError(key: string)
    | IndexError
    | TypeError

  datatype Result<T> = Ok(value: T) | Err(error: Error) {

    predicate IsFailure() {
      Err?
    }

    function PropagateFailure<U>(): Result<U>
      requires Err?
    {
      Err(error)
    }

    function Extract(): T
      requires Ok?
    {
      value
    }
  }
}
