/** Values exchanged between a class loader, its parent and its callers.
    Classes, loaders and URLs are opaque identities; nothing here loads code. */
module Loading {

  /** Java's `Optional`: `None` is `Optional.empty()`. */
  datatype Option<+T> = None | Some(value: T)

  /** A class or resource name, compared by exact string equality. */
  type Name = string

  /** The identity of a parent class loader (the outer cache compares its keys by identity). */
  type LoaderId = nat

  /** The identity of a loaded `Class<?>` object. */
  datatype ClassRef = ClassRef(id: nat)

  /** A resource location as returned by `ClassLoader.getResource`. */
  datatype Url = Url(spec: string)

  /** A possibly-null `URL` reference. */
  datatype NullableUrl = Null | NonNull(url: Url)

  /** What a Java call can throw, as far as this model distinguishes it. */
  datatype Throwable =
    | ClassNotFoundException(message: Name)
      /** The unchecked exception the memo table raises around a failure of its computation. */
    | Wrapped(cause: Throwable)
      /** Any other exception or error, by identity. */
    | OtherThrowable(id: nat)

  /** A Java call either returns a value or throws. */
  datatype Outcome<+T> = Returned(value: T) | Threw(thrown: Throwable)
}
