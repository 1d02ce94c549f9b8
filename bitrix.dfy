/**
 * The CRM (Bitrix24) as the services see it. The REST client is not part of this model:
 * each call is a function from its arguments to its answer, `None` standing for any
 * failure of the call. Services report the calls they make as a list of `CrmCall`s, so
 * contracts can say which calls happen and which do not.
 */
module Bitrix {
  import opened Wrappers
  import opened Models

  /** The fields of a CRM deal the core reads; the CRM sends them all as strings. */
  datatype LeadView = LeadView(
    id: string,
    status: string,
    categoryId: string,
    internetPayment: string,
    cleaningPayment: string,
    shippingPayment: string)

  /** A CRM timeline comment: the deal it is attached to and its text. */
  datatype CommentView = CommentView(entityId: string, comment: string)

  /**
   * `sendDeal` creates a deal and answers its numeric id; `sendComment` posts a comment to
   * a deal and answers the comment id; `getLead` and `getComment` fetch by id.
   */
  datatype Crm = Crm(
    sendDeal: (CreateLeadDTO, User) -> Option<int>,
    getLead: int -> Option<LeadView>,
    sendComment: (int, string) -> Option<int>,
    getComment: int -> Option<CommentView>)

  datatype CrmCall =
    | SendDeal(draft: CreateLeadDTO, user: User)
    | GetLead(id: int)
    | SendComment(leadId: int, text: string)
    | GetComment(id: int)
}
