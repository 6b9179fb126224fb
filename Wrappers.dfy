/** Option and Result, used for absent values (a missing storage key, a missing
    translation) and for the one error the core raises (useLanguage outside a provider). */
module Wrappers {

  datatype Option<+T> = None | Some(value: T)

  datatype Result<+R, +E> = Success(value: R) | Failure(error: E)
}
