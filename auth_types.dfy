/** Values shared by the session store, the navigation guard and the
    application entry point: the identity provider's user and session
    objects, and the results of calls that can fail. */
module AuthTypes {

  /** A value that may be absent (the source's `null`). */
  datatype Option<T> = None | Some(value: T)

  /** The outcome of an operation that can throw: a thrown error becomes `Err`. */
  datatype Result<T> = Ok(value: T) | Err(error: Error)

  datatype Error =
    | ProviderError(message: string)  // reported by the identity service, the profile table or the storage bucket
    | DuplicateKey(id: string)        // the profile table already holds a row with this primary key
    | NoUserLoggedIn                  // raised locally, before any remote call

  /** The authenticated principal, as the identity service returns it. */
  datatype User = User(id: string, email: string)

  /** A credential bundle; it carries the user it was issued to. */
  datatype Session = Session(user: User, accessToken: string, refreshToken: string)
}
