/** Failure-compatible wrapper shared by the modules of this model: every
    ledger call of the bot answers with a value or with nothing. */
module Wrappers {

  datatype Option<+T> = None | Some(value: T)
}
