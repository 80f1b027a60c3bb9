/** Failure-compatible wrappers shared by every builder of the syntax tree. */
module Results {

  datatype Option<+T> = None | Some(value: T)

  /** Why building part of the syntax tree failed. Every failure aborts the
      whole build: nothing is ever partially constructed. */
  datatype Error =
      /** A `class_def` or `property_body_def` node handed to the statement builder. */
    | UnsupportedNodeKind(kind: string)
      /** A class asked to load from a node that is neither `start` nor `class_def`. */
    | InvalidRootNode(kind: string)
      /** A name token or a `func_args` subtree that the lookup could not find. */
    | LookupFailure(target: string)
      /** A token where a tree was expected, a tree where a token was expected,
          or a child index past the end of a node's children. */
    | MalformedNode

  datatype Result<+T> = Success(value: T) | Failure(error: Error) {

    predicate IsFailure() {
      Failure?
    }

    function PropagateFailure<U>(): Result<U>
      requires Failure?
    {
      Failure(error)
    }

    function Extract(): T
      requires Success?
    {
      value
    }
  }
}
