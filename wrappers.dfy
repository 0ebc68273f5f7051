/** Option and Result, and the toast notification record the pages raise. */
module Wrappers {

  datatype Option<+T> = None | Some(value: T) {
    function GetOr(default: T): T {
      match this
      case Some(v) => v
      case None => default
    }
  }

  datatype Result<+R, +E> = Success(value: R) | Failure(error: E)

  /** A toast as the pages raise it: a title, a description and whether it is shown as destructive. */
  datatype Toast = Toast(title: string, description: string, destructive: bool)
}
