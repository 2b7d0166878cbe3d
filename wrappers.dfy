/** Optional values, results, and the failures the storage service can raise. */
module Wrappers {

  datatype Option<+T> = None | Some(value: T)

  /** Every failure an operation of the model can end in. */
  datatype Error =
    | InvalidObjectId          // a string that is not the string form of a native key
    | ChatNotFound             // membership check on a chat that does not exist (iterating None)
    | MessagesRetrievalDenied  // requesting user is not a participant of the chat
    | ChatCreationDenied       // requesting user is not among the participants of the new chat
    | ChatUpdatingDenied       // requesting user tries to change somebody else's profile
    | MissingField             // a dataclass is constructed without a field that has no default

  datatype Result<+T> = Ok(value: T) | Err(error: Error)
}
