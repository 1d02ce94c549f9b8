/** What the two repositories share: their sentinel errors and the listing filter. */
module Storage {
  import opened Wrappers

  /**
   * `ErrLeadNotFound`, `ErrLeadsNotFound`, `ErrCommentsNotFound` and `ErrReferralsNotFound`
   * are the package's sentinel values; `DbError(op)` is any failure of the database itself,
   * wrapped with the name of the operation.
   */
  datatype StoreError =
    | ErrLeadNotFound
    | ErrLeadsNotFound
    | ErrCommentsNotFound
    | ErrReferralsNotFound
    | DbError(op: string)

  /** The parameters of the lead listing query; `None` stands for nil. */
  datatype LeadFilter = LeadFilter(
    statusId: Option<int>,
    startDate: Option<nat>,
    endDate: Option<nat>,
    limit: int,
    offset: int,
    userId: Option<int>,
    search: Option<string>,
    isInternet: Option<bool>,
    isShipping: Option<bool>,
    isCleaning: Option<bool>)
}
