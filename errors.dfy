/** The error type of session creation (`Error` in src/session/create.rs). Only
    its `Validation` variant is produced by the logic modelled here; the `Io` and
    `Parse` variants come from reading and parsing the file, which is not part
    of this model. */
module Errors {

  datatype Error = Validation(message: string)
}
