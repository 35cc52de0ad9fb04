/** Outcomes shared by every layer: an optional value, and a result that is
    either a value or one of the exceptions the VAT 641 driver can raise. */
module Errors {

  datatype Option<+T> = None | Some(value: T)

  /** The exceptions raised by the protocol and driver layers. Python's
      exception classes become constructors; the human-readable messages
      the source attaches are kept where the source states them. */
  datatype Error =
    | CommunicationError(reason: string)  // vat_641.protocol.CommunicationError
    | UnicodeError                        // the 'ascii' codec refused a character or byte
    | IndexError                          // indexing past the end of a str
    | TypeError(reason: string)
    | ValueError(reason: string)
    | NotQueryable                        // a slave Command without a query header was queried
    | ResponseShapeError                  // the slave String type got other than one token

  datatype Result<+T> = Ok(value: T) | Err(error: Error)

  const HeaderMismatch: string := "Response header mismatch"
  const ReadFailed: string := "Could not read response"
  const SendFailed: string := "Could not send data"
}
