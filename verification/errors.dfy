/** Errors produced by code this package calls but does not implement
    (context, encoding/json, mime/multipart, net/http, io). Only their
    message is observable here. */
module Errors {

  datatype Cause = Cause(message: string)

  /** The message of `errors.Wrap(cause, note)` from github.com/pkg/errors. */
  function Wrap(note: string, cause: Cause): string
  {
    note + ": " + cause.message
  }
}
