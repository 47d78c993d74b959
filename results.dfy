/** Outcomes shared by every module of the graph library.
    The library reports each failure with an IllegalArgumentException; here each
    failure is a tag, so that contracts can say which check rejected the call. */
module Results {

  /** A possibly-absent identifier: `None` stands for a Java `null`. */
  datatype Option<T> = None | Some(value: T)

  /** Why a call was rejected. */
  datatype Error =
    | NullId           // an identifier argument was null
    | SameIds          // getPath was asked for a path from a vertex to itself
    | DuplicateVertex  // addVertex with an id that is already registered
    | UnknownVertex    // an endpoint that is not a registered vertex
    | DuplicateEdge    // connectTo with a neighbour that is already listed

  /** The outcome of a call that returns nothing on success. */
  datatype Outcome = Ok | Fail(error: Error)

  /** The outcome of a call that returns a value on success. */
  datatype Result<R> = Success(value: R) | Failure(error: Error)
}
