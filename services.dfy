/** What the services share: the request context and the errors they return. */
module Services {
  import opened Wrappers

  /** The authenticated caller, as the request context carries it; `None` when it does not. */
  datatype Ctx = Ctx(userId: Option<int>)

  /**
   * The service errors. The four sentinels are the ones callers compare against;
   * `Failed(op)` is any other failure, reported under the name of the operation;
   * `Panic(reason)` is a Go run-time panic, which the HTTP server recovers from by
   * closing the connection.
   */
  datatype Error =
    | ErrLeadNotFound
    | ErrLeadDoesNotBelongToUser
    | ErrCommentDoesNotBelongToTheFunnel
    | ErrCommentsNotFound
    | Failed(op: string)
    | Panic(reason: string)
}
