/**
 * The CRM's outgoing webhooks: a deal changed stage, or a comment was added. Each
 * handler accepts POST only, reads the urlencoded form, checks the shared secret the CRM
 * sends, and hands the deal or comment to its service.
 */
module BitrixController {
  import opened Wrappers
  import opened Text
  import opened Models
  import opened Bitrix
  import opened Services
  import opened Responses
  import CommentStorage
  import CommentService
  import LeadService

  /** The form key of the i-th document id: `document_id[i]`. */
  function DocKey(i: nat): string
  {
    "document_id[" + NatToDecimal(i) + "]"
  }

  lemma DocKeyInjective(a: nat, b: nat)
    requires a != b
    ensures DocKey(a) != DocKey(b)
  {
    DecimalInjective(a, b);
    var prefix := "document_id[";
    assert DocKey(a)[|prefix|..|DocKey(a)| - 1] == NatToDecimal(a);
    assert DocKey(b)[|prefix|..|DocKey(b)| - 1] == NatToDecimal(b);
  }

  /** `ids` are the values of `document_id[0]`, `document_id[1]`, ... up to the first empty or missing one. */
  predicate IsDocumentIds(form: map<string, string>, ids: seq<string>)
  {
    && (forall j :: 0 <= j < |ids| ==> ids[j] != "" && FormValue(form, DocKey(j)) == ids[j])
    && FormValue(form, DocKey(|ids|)) == ""
  }

  /** A form has one document id list. */
  lemma DocumentIdsUnique(form: map<string, string>, a: seq<string>, b: seq<string>)
    requires IsDocumentIds(form, a) && IsDocumentIds(form, b)
    ensures a == b
  {
  }

  /** A hook whose third document id is `DEAL_<n>` is about deal `n`. */
  lemma HookNamesDeal(form: map<string, string>, ids: seq<string>, n: int)
    requires IsDocumentIds(form, ids)
    requires FormValue(form, DocKey(0)) != "" && FormValue(form, DocKey(1)) != ""
    requires FormValue(form, DocKey(2)) == "DEAL_" + FormatInt(n)
    requires MinInt64 <= n <= MaxInt64
    ensures LeadService.DealId(ids) == Success(n)
  {
    assert |ids| >= 3;
    assert ids == [ids[0], ids[1], "DEAL_" + FormatInt(n)] + ids[3..];
    LeadService.DealIdRoundTrip(ids[0], ids[1], n, ids[3..]);
  }

  /** Reads the document ids in index order until the first gap. */
  method ScanDocumentIds(form: map<string, string>) returns (ids: seq<string>)
    ensures IsDocumentIds(form, ids)
  {
    ids := [];
    ghost var seen: set<string> := {};
    var i := 0;
    while FormValue(form, DocKey(i)) != ""
      invariant |ids| == i
      invariant forall j :: 0 <= j < i ==> ids[j] != "" && FormValue(form, DocKey(j)) == ids[j]
      invariant seen <= form.Keys && |seen| == i
      invariant forall k :: k in seen ==> exists j :: 0 <= j < i && k == DocKey(j)
      decreases |form.Keys| - |seen|
    {
      var key := DocKey(i);
      if key in seen {
        var j :| 0 <= j < i && key == DocKey(j);
        DocKeyInjective(i, j);
        assert false;
      }
      ids := ids + [form[key]];
      assert |form.Keys| == |form.Keys - (seen + {key})| + |seen + {key}|;
      seen := seen + {key};
      i := i + 1;
    }
  }

  /** The deal hook's answer to EditDeal's outcome: a panic drops the connection. */
  function DealResponse(err: Option<Error>): (resp: Response)
    ensures err.None? <==> StatusCode(resp) == Some(200)
    ensures err.Some? && err.value.Panic? <==> StatusCode(resp).None?
    ensures err.Some? && !err.value.Panic? <==> StatusCode(resp) == Some(500)
  {
    if err.None? then Ok
    else if err.value.Panic? then ConnectionClosed
    else ServerError
  }

  class BitrixController {
    const authTokenDeal: string
    const authTokenComment: string
    const leadService: LeadService.LeadService
    const commentService: CommentService.CommentService

    ghost predicate Valid()
      reads this, leadService, leadService.leads, commentService, commentService.leads, commentService.comments
    {
      && leadService.commentService == commentService
      && leadService.Valid()
    }

    constructor (authTokenDeal: string, authTokenComment: string, leadService: LeadService.LeadService,
                 commentService: CommentService.CommentService)
      ensures this.authTokenDeal == authTokenDeal && this.authTokenComment == authTokenComment
      ensures this.leadService == leadService && this.commentService == commentService
    {
      this.authTokenDeal := authTokenDeal;
      this.authTokenComment := authTokenComment;
      this.leadService := leadService;
      this.commentService := commentService;
    }

    /**
     * The deal-change hook: POST only, a readable form, and `auth[member_id]` equal to the
     * configured token; then EditDeal receives exactly the scanned document ids.
     */
    method ChangingDeal(req: Request, now: nat) returns (resp: Response, ids: seq<string>)
      requires Valid()
      modifies leadService.leads
      ensures Valid()
      ensures req.verb != "POST" ==> resp == MethodNotAllowed("POST") && leadService.leads.rows == old(leadService.leads.rows)
      ensures req.verb == "POST" && req.form.None? ==> resp == ServerError && leadService.leads.rows == old(leadService.leads.rows)
      ensures req.verb == "POST" && req.form.Some? ==>
        && IsDocumentIds(req.form.value, ids)
        && (FormValue(req.form.value, "auth[member_id]") != authTokenDeal ==>
              resp == Forbidden && leadService.leads.rows == old(leadService.leads.rows))
        && (FormValue(req.form.value, "auth[member_id]") == authTokenDeal ==>
              && resp == DealResponse(leadService.DealOutcome(ids))
              && leadService.leads.rows == leadService.DealRows(old(leadService.leads.rows), ids, now))
    {
      ids := [];
      if req.verb != "POST" {
        return MethodNotAllowed("POST"), ids;
      }
      if req.form.None? {
        return ServerError, ids;
      }
      var form := req.form.value;
      ids := ScanDocumentIds(form);
      if FormValue(form, "auth[member_id]") != authTokenDeal {
        return Forbidden, ids;
      }
      var err, _ := leadService.EditDeal(ids, now);
      resp := DealResponse(err);
    }

    /**
     * The comment hook: POST only, a readable form, a decimal `data[FIELDS][ID]` (checked
     * before the token), and `auth[application_token]` equal to the configured token; a
     * comment outside the funnel is forbidden, any other failure a server error.
     */
    method NewComment(req: Request, now: nat) returns (resp: Response)
      requires Valid()
      modifies commentService.comments
      ensures Valid()
      ensures req.verb != "POST" || req.form.None? ==>
        && resp == (if req.verb != "POST" then MethodNotAllowed("POST") else ServerError)
        && commentService.comments.rows == old(commentService.comments.rows)
        && commentService.comments.nextId == old(commentService.comments.nextId)
      ensures req.verb == "POST" && req.form.Some? ==>
        var form := req.form.value;
        var id := ParseInt64(FormValue(form, "data[FIELDS][ID]"));
        && (id.None? || FormValue(form, "auth[application_token]") != authTokenComment ==>
              && resp == (if id.None? then BadRequest("Invalid ID") else Forbidden)
              && commentService.comments.rows == old(commentService.comments.rows)
              && commentService.comments.nextId == old(commentService.comments.nextId))
        && (id.Some? && FormValue(form, "auth[application_token]") == authTokenComment ==>
              var deal := CommentService.CrmCommentDeal(commentService.crm, id.value);
              var lead := CommentService.CrmCommentLead(commentService.crm, commentService.idFunnel, id.value);
              && (resp == Ok || resp == Forbidden || resp == ServerError)
              && (resp == Forbidden <==> deal.Some? && deal.value.categoryId != commentService.idFunnel)
              && (lead.None? ==>
                    && resp != Ok
                    && commentService.comments.rows == old(commentService.comments.rows)
                    && commentService.comments.nextId == old(commentService.comments.nextId))
              && (lead.Some? ==>
                    var c := Comment(id.value, lead.value, ManagerUserId, commentService.crm.getComment(id.value).value.comment, 0);
                    var k := CommentStorage.TargetId(c, old(commentService.comments.nextId));
                    && (resp == Ok <==> commentService.comments.connected && k !in old(commentService.comments.rows))
                    && (resp == Ok ==>
                          commentService.comments.rows ==
                            old(commentService.comments.rows)[k := CommentStorage.Stored(c, old(commentService.comments.nextId), now)])
                    && (resp != Ok ==> commentService.comments.rows == old(commentService.comments.rows))))
    {
      if req.verb != "POST" {
        return MethodNotAllowed("POST");
      }
      if req.form.None? {
        return ServerError;
      }
      var form := req.form.value;
      var id := ParseInt64(FormValue(form, "data[FIELDS][ID]"));
      if id.None? {
        return BadRequest("Invalid ID");
      }
      if FormValue(form, "auth[application_token]") != authTokenComment {
        return Forbidden;
      }
      var err, _ := commentService.SaveCommentFromBitrix(id.value, now);
      if err.Some? {
        if err.value == ErrCommentDoesNotBelongToTheFunnel {
          return Forbidden;
        }
        return ServerError;
      }
      resp := Ok;
    }
  }
}
