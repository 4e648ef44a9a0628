/**
 * Go `error` values as the support/errors package builds them: a fresh
 * message (`errors.New`) or a message wrapped around a cause (`errors.Wrap`).
 * Errors returned by code outside the model are arbitrary values of this type.
 */
module Errors {
  datatype Error = New(msg: string) | Wrap(cause: Error, msg: string)
}
