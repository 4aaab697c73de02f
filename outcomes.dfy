/** Optional values, the errors the update pipeline can meet, and the result type that carries them. */
module Outcomes {

  datatype Option<T> = None | Some(value: T)

  /** The failures of the per-request flow: reading the profile, signing the attribute, publishing. */
  datatype Error =
    | FetchFailed(userId: string)
    | SigningFailed
    | PublishFailed(userId: string)

  datatype Result<T> = Ok(value: T) | Err(error: Error)
}
