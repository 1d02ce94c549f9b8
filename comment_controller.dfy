/**
 * The endpoint through which a user comments on one of their leads. The JSON decoder and
 * the struct validator are not part of this model: their results are inputs.
 */
module CommentController {
  import opened Wrappers
  import opened Models
  import opened Services
  import opened Responses
  import Bitrix
  import CommentStorage
  import CommentService

  /**
   * The checks before the service is called, in order: the method, the body's decoding,
   * the validation of the decoded body. `None` lets the request through.
   */
  function Admit(verb: string, body: Option<AddCommentDTO>, invalid: Option<string>): (r: Option<Response>)
    ensures r.None? <==> verb == "POST" && body.Some? && invalid.None?
    ensures verb != "POST" ==> r == Some(MethodNotAllowed("POST"))
    ensures verb == "POST" && body.None? ==> r == Some(InvalidRequest)
    ensures verb == "POST" && body.Some? && invalid.Some? ==> r == Some(ValidationError(invalid.value))
  {
    if verb != "POST" then Some(MethodNotAllowed("POST"))
    else if body.None? then Some(InvalidRequest)
    else if invalid.Some? then Some(ValidationError(invalid.value))
    else None
  }

  /** The answer to the service's result: the saved comment, or the error's response. */
  function Respond(r: Result<CommentDTO, Error>): (resp: Response)
    ensures r.Success? <==> resp.Json?
    ensures r.Success? ==> resp.comment == r.value
    ensures r == Failure(ErrLeadNotFound) <==> StatusCode(resp) == Some(404)
    ensures r == Failure(ErrLeadDoesNotBelongToUser) <==> StatusCode(resp) == Some(403)
    ensures r.Failure? && r.error != ErrLeadNotFound && r.error != ErrLeadDoesNotBelongToUser <==> StatusCode(resp) == Some(500)
  {
    if r.Success? then Json(r.value)
    else if r.error == ErrLeadNotFound then LeadNotFound
    else if r.error == ErrLeadDoesNotBelongToUser then Forbidden
    else ServerError
  }

  class CommentController {
    const commentService: CommentService.CommentService

    constructor (commentService: CommentService.CommentService)
      ensures this.commentService == commentService
    {
      this.commentService := commentService;
    }

    /**
     * A rejected request reaches neither the CRM nor the store; an admitted one is the
     * service's SaveComment, answered as `Respond` says.
     */
    method SaveComment(ctx: Ctx, verb: string, body: Option<AddCommentDTO>, invalid: Option<string>, now: nat)
      returns (resp: Response, calls: seq<Bitrix.CrmCall>)
      requires commentService.Valid()
      modifies commentService.comments
      ensures commentService.Valid()
      ensures Admit(verb, body, invalid).Some? ==>
        && resp == Admit(verb, body, invalid).value && calls == []
        && commentService.comments.rows == old(commentService.comments.rows)
        && commentService.comments.nextId == old(commentService.comments.nextId)
      ensures Admit(verb, body, invalid).None? ==>
        var idLead := body.value.idLead;
        var text := body.value.comment;
        && (ctx.userId.None? || !commentService.leads.connected ==> resp == ServerError)
        && (ctx.userId.Some? && commentService.leads.connected && idLead !in commentService.leads.rows ==> resp == LeadNotFound)
        && (&& ctx.userId.Some? && commentService.leads.connected && idLead in commentService.leads.rows
            && commentService.leads.rows[idLead].userId != ctx.userId.value
            ==> resp == Forbidden)
        && (!commentService.MayComment(ctx, idLead) ==>
              && calls == []
              && commentService.comments.rows == old(commentService.comments.rows)
              && commentService.comments.nextId == old(commentService.comments.nextId))
        && (commentService.MayComment(ctx, idLead) ==>
              && calls == [Bitrix.SendComment(idLead, text)]
              && (resp.Json? || resp == ServerError)
              && (resp.Json? <==>
                    && commentService.crm.sendComment(idLead, text).Some?
                    && commentService.comments.connected
                    && CommentStorage.TargetId(Comment(commentService.crm.sendComment(idLead, text).value, idLead, ctx.userId.value, text, 0),
                                               old(commentService.comments.nextId)) !in old(commentService.comments.rows))
              && (resp.Json? ==> exists k :: (
                    && k !in old(commentService.comments.rows)
                    && commentService.comments.rows == old(commentService.comments.rows)[k := Comment(k, idLead, ctx.userId.value, text, now)]
                    && resp.comment == CommentService.ToCommentDTO(Comment(k, idLead, ctx.userId.value, text, now))))
              && (resp == ServerError ==> commentService.comments.rows == old(commentService.comments.rows)))
    {
      var rejected := Admit(verb, body, invalid);
      if rejected.Some? {
        return rejected.value, [];
      }
      ghost var before := commentService.comments.rows;
      ghost var next := commentService.comments.nextId;
      var result;
      result, calls := commentService.SaveComment(ctx, body.value.idLead, body.value.comment, now);
      resp := Respond(result);
      if result.Success? {
        ghost var c := Comment(commentService.crm.sendComment(body.value.idLead, body.value.comment).value,
                               body.value.idLead, ctx.userId.value, body.value.comment, 0);
        ghost var k := CommentStorage.TargetId(c, next);
        assert k !in before && commentService.comments.rows == before[k := Comment(k, body.value.idLead, ctx.userId.value, body.value.comment, now)];
      }
    }
  }
}
