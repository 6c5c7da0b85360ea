/**
 The ways a call into a collaborator of the handler can end. The handler's
 collaborators (the image decoder, the file system, the tag parser, the text
 generator and the database) are not modelled; each call is replaced by the
 outcome it had in the request at hand, supplied as an input.
 */
module Outcomes {

  /** The conventional Some/None datatype, used for the optional uploaded file. */
  datatype Option<+T> = None | Some(value: T)

  /** What a thrown JavaScript error carries into a `catch` block: its
      `message` and its `stack` text, both opaque here. */
  datatype Error = Error(message: string, stack: string)

  /** A call either returned (or its promise resolved) with a value, or threw
      (or its promise rejected) with an error. */
  datatype Outcome<+T> = Returned(value: T) | Threw(error: Error)
}
