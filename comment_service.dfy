/**
 * The comment service: comments a user adds to one of their own leads (sent to the CRM
 * first, then stored under the CRM's comment id), comments the CRM reports through its
 * outbound hook (stored as written by the manager), and the comment listing of a lead.
 */
module CommentService {
  import opened Wrappers
  import opened Text
  import opened Models
  import Storage
  import opened Bitrix
  import opened Services
  import LeadStorage
  import CommentStorage

  const SaveCommentOp := "CommentService.SaveComment"
  const SaveCommentFromBitrixOp := "CommentService.SaveCommentFromBitrix"
  const CommentsOp := "CommentService.Comments"

  /** The response shape of a comment: it is a manager's when its author is the manager id. */
  function ToCommentDTO(c: Comment): (d: CommentDTO)
    ensures d.id == c.id && d.text == c.text && d.createdAt == c.createdAt
    ensures d.manager <==> c.userId == ManagerUserId
  {
    CommentDTO(c.id, c.userId == ManagerUserId, c.text, c.createdAt)
  }

  function ToCommentDTOs(cs: seq<Comment>): (ds: seq<CommentDTO>)
    ensures |ds| == |cs| && forall i :: 0 <= i < |cs| ==> ds[i] == ToCommentDTO(cs[i])
  {
    seq(|cs|, i requires 0 <= i < |cs| => ToCommentDTO(cs[i]))
  }

  /** The CRM deal a CRM comment hangs on, when the comment, its entity id and the deal can all be read. */
  function CrmCommentDeal(crm: Crm, idComment: int): Option<LeadView>
  {
    var cv := crm.getComment(idComment);
    var entity := if cv.Some? then ParseInt64(cv.value.entityId) else None;
    if entity.Some? then crm.getLead(entity.value) else None
  }

  /**
   * The deal a CRM comment belongs to, when the hook's comment is one this service
   * stores: the CRM knows the comment, its entity id is a number, the CRM knows that
   * deal, the deal is in this service's funnel and its id is a number.
   */
  function CrmCommentLead(crm: Crm, idFunnel: string, idComment: int): Option<int>
  {
    var cv := crm.getComment(idComment);
    var entity := if cv.Some? then ParseInt64(cv.value.entityId) else None;
    var lv := if entity.Some? then crm.getLead(entity.value) else None;
    if lv.Some? && lv.value.categoryId == idFunnel then ParseInt64(lv.value.id) else None
  }

  class CommentService {
    const idFunnel: string
    const crm: Crm
    const leads: LeadStorage.LeadRepository
    const comments: CommentStorage.CommentRepository

    ghost predicate Valid()
      reads this, leads, comments
    {
      leads.Valid() && comments.Valid()
    }

    constructor (idFunnel: string, crm: Crm, leads: LeadStorage.LeadRepository, comments: CommentStorage.CommentRepository)
      ensures this.idFunnel == idFunnel && this.crm == crm && this.leads == leads && this.comments == comments
    {
      this.idFunnel := idFunnel;
      this.crm := crm;
      this.leads := leads;
      this.comments := comments;
    }

    /** The caller is authenticated and owns lead `idLead`, which the database can read. */
    ghost predicate MayComment(ctx: Ctx, idLead: int)
      reads this, leads
    {
      ctx.userId.Some? && leads.connected && idLead in leads.rows && leads.rows[idLead].userId == ctx.userId.value
    }

    /**
     * Adds a comment to a lead of the caller: nothing reaches the CRM unless the caller
     * owns the lead; the CRM's comment id becomes the stored id (0 lets the table
     * number it), and the result is the stored comment.
     */
    method SaveComment(ctx: Ctx, idLead: int, text: string, now: nat) returns (r: Result<CommentDTO, Error>, calls: seq<CrmCall>)
      requires Valid()
      modifies comments
      ensures Valid()
      ensures ctx.userId.None? ==> r == Failure(Failed(SaveCommentOp))
      ensures ctx.userId.Some? && !leads.connected ==> r == Failure(Failed(SaveCommentOp))
      ensures ctx.userId.Some? && leads.connected && idLead !in leads.rows ==> r == Failure(ErrLeadNotFound)
      ensures ctx.userId.Some? && leads.connected && idLead in leads.rows && leads.rows[idLead].userId != ctx.userId.value ==>
        r == Failure(ErrLeadDoesNotBelongToUser)
      ensures !MayComment(ctx, idLead) ==>
        calls == [] && comments.rows == old(comments.rows) && comments.nextId == old(comments.nextId)
      ensures MayComment(ctx, idLead) ==> calls == [SendComment(idLead, text)]
      ensures MayComment(ctx, idLead) && crm.sendComment(idLead, text).None? ==>
        && r == Failure(Failed(SaveCommentOp))
        && comments.rows == old(comments.rows) && comments.nextId == old(comments.nextId)
      ensures MayComment(ctx, idLead) && crm.sendComment(idLead, text).Some? ==>
        var c := Comment(crm.sendComment(idLead, text).value, idLead, ctx.userId.value, text, 0);
        var id := CommentStorage.TargetId(c, old(comments.nextId));
        var saved := CommentStorage.Stored(c, old(comments.nextId), now);
        && comments.nextId == (if comments.connected && c.id == 0 then old(comments.nextId) + 1 else old(comments.nextId))
        && (comments.connected && id !in old(comments.rows) ==>
              r == Success(ToCommentDTO(saved)) && comments.rows == old(comments.rows)[id := saved])
        && (!comments.connected || id in old(comments.rows) ==>
              r == Failure(Failed(SaveCommentOp)) && comments.rows == old(comments.rows))
    {
      calls := [];
      if ctx.userId.None? {
        return Failure(Failed(SaveCommentOp)), calls;
      }
      var userId := ctx.userId.value;
      var lead := leads.LeadByID(idLead);
      if lead.Failure? {
        if lead.error == Storage.ErrLeadNotFound {
          return Failure(ErrLeadNotFound), calls;
        }
        return Failure(Failed(SaveCommentOp)), calls;
      }
      if userId != lead.value.userId {
        return Failure(ErrLeadDoesNotBelongToUser), calls;
      }
      calls := calls + [SendComment(idLead, text)];
      var sent := crm.sendComment(idLead, text);
      if sent.None? {
        return Failure(Failed(SaveCommentOp)), calls;
      }
      var comment := Comment(sent.value, idLead, userId, text, 0);
      var saved := comments.SaveComment(comment, now);
      if saved.Failure? {
        return Failure(Failed(SaveCommentOp)), calls;
      }
      r := Success(ToCommentDTO(saved.value));
    }

    /**
     * Stores a comment the CRM reports: the comment is fetched, its deal is fetched,
     * and it is stored under its CRM id, on the deal's lead, as written by the manager,
     * only when the deal belongs to this service's funnel.
     */
    method SaveCommentFromBitrix(idComment: int, now: nat) returns (err: Option<Error>, calls: seq<CrmCall>)
      requires Valid()
      modifies comments
      ensures Valid()
      ensures var cv := crm.getComment(idComment);
        var entity := if cv.Some? then ParseInt64(cv.value.entityId) else None;
        calls == [GetComment(idComment)] + (if entity.Some? then [GetLead(entity.value)] else [])
      ensures var cv := crm.getComment(idComment);
        var entity := if cv.Some? then ParseInt64(cv.value.entityId) else None;
        var lv := if entity.Some? then crm.getLead(entity.value) else None;
        lv.Some? && lv.value.categoryId != idFunnel ==> err == Some(ErrCommentDoesNotBelongToTheFunnel)
      ensures err == Some(ErrCommentDoesNotBelongToTheFunnel) <==>
        CrmCommentDeal(crm, idComment).Some? && CrmCommentDeal(crm, idComment).value.categoryId != idFunnel
      ensures CrmCommentLead(crm, idFunnel, idComment).None? ==>
        && err.Some? && (err.value == ErrCommentDoesNotBelongToTheFunnel || err.value == Failed(SaveCommentFromBitrixOp))
        && comments.rows == old(comments.rows) && comments.nextId == old(comments.nextId)
      ensures && CrmCommentLead(crm, idFunnel, idComment).None?
              && !(CrmCommentDeal(crm, idComment).Some? && CrmCommentDeal(crm, idComment).value.categoryId != idFunnel)
              ==> err == Some(Failed(SaveCommentFromBitrixOp))
      ensures CrmCommentLead(crm, idFunnel, idComment).Some? ==>
        var c := Comment(idComment, CrmCommentLead(crm, idFunnel, idComment).value, ManagerUserId, crm.getComment(idComment).value.comment, 0);
        var id := CommentStorage.TargetId(c, old(comments.nextId));
        var saved := CommentStorage.Stored(c, old(comments.nextId), now);
        && comments.nextId == (if comments.connected && c.id == 0 then old(comments.nextId) + 1 else old(comments.nextId))
        && (comments.connected && id !in old(comments.rows) ==> err.None? && comments.rows == old(comments.rows)[id := saved])
        && (!comments.connected || id in old(comments.rows) ==>
              err == Some(Failed(SaveCommentFromBitrixOp)) && comments.rows == old(comments.rows))
    {
      calls := [GetComment(idComment)];
      var cv := crm.getComment(idComment);
      if cv.None? {
        return Some(Failed(SaveCommentFromBitrixOp)), calls;
      }
      var entityId := ParseInt64(cv.value.entityId);
      if entityId.None? {
        return Some(Failed(SaveCommentFromBitrixOp)), calls;
      }
      calls := calls + [GetLead(entityId.value)];
      var lv := crm.getLead(entityId.value);
      if lv.None? {
        return Some(Failed(SaveCommentFromBitrixOp)), calls;
      }
      if lv.value.categoryId != idFunnel {
        return Some(ErrCommentDoesNotBelongToTheFunnel), calls;
      }
      var leadId := ParseInt64(lv.value.id);
      if leadId.None? {
        return Some(Failed(SaveCommentFromBitrixOp)), calls;
      }
      var comment := Comment(idComment, leadId.value, ManagerUserId, cv.value.comment, 0);
      var saved := comments.SaveComment(comment, now);
      if saved.Failure? {
        return Some(Failed(SaveCommentFromBitrixOp)), calls;
      }
      err := None;
    }

    /**
     * The comments of a lead, oldest first, in response shape; a lead without comments
     * is `ErrCommentsNotFound`, not an empty list.
     */
    method Comments(leadId: int) returns (r: Result<seq<CommentDTO>, Error>, ghost stored: seq<Comment>)
      requires Valid()
      ensures !comments.connected ==> r == Failure(Failed(CommentsOp))
      ensures comments.connected ==>
        (r == Failure(ErrCommentsNotFound) <==> forall k :: k in comments.rows ==> comments.rows[k].leadId != leadId)
      ensures comments.connected && r.Failure? ==> r.error == ErrCommentsNotFound
      ensures r.Success? ==>
        && CommentStorage.IsListing(comments.rows, leadId, stored) && stored != []
        && |r.value| == |stored|
        && forall i :: 0 <= i < |stored| ==> r.value[i] == ToCommentDTO(stored[i])
    {
      stored := [];
      var found := comments.Comments(leadId);
      if found.Failure? {
        if found.error == Storage.ErrCommentsNotFound {
          return Failure(ErrCommentsNotFound), stored;
        }
        return Failure(Failed(CommentsOp)), stored;
      }
      var cs := found.value;
      stored := cs;
      var result: seq<CommentDTO> := [];
      var i := 0;
      while i < |cs|
        invariant 0 <= i <= |cs|
        invariant result == ToCommentDTOs(cs[..i])
      {
        result := result + [ToCommentDTO(cs[i])];
        i := i + 1;
      }
      assert cs[..|cs|] == cs;
      r := Success(result);
    }
  }
}
