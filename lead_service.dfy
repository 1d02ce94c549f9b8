/**
 * The lead service: a user's leads with their comments, a lead submission that creates
 * the CRM deal first and then the row, the CRM's deal-change hook that copies the deal's
 * stage and payments onto the row, and a user's payment statistics. The user service
 * and the referral repository are not part of this model: they are given as lookups.
 */
module LeadService {
  import opened Wrappers
  import opened Text
  import opened Models
  import Storage
  import opened Bitrix
  import opened Services
  import LeadStorage
  import CommentStorage
  import CommentService

  const LeadsOp := "LeadService.Leads"
  const SaveLeadOp := "LeadService.SaveLead"
  const EditDealOp := "LeadService.EditDeal"
  const StatisticOp := "LeadService.GetUserPaymentStatistic"

  // ---------------------------------------------------------------------------
  // The deal-change hook
  // ---------------------------------------------------------------------------

  /** The stages of the tracked CRM funnel and the lead status each one stands for. */
  const Statuses: map<string, int> := map[
    "C42:NEW" := 0,
    "C42:PREPARATION" := 1,
    "C42:PREPAYMENT_INVOIC" := 2,
    "C42:EXECUTING" := 7,
    "C42:FINAL_INVOICE" := 3,
    "C42:1" := 4,
    "C42:LOSE" := 6,
    "C42:WON" := 5]

  /** The stage standing for a lead status, the inverse of `Statuses`. */
  function StageOf(status: int): Option<string>
  {
    match status
    case 0 => Some("C42:NEW")
    case 1 => Some("C42:PREPARATION")
    case 2 => Some("C42:PREPAYMENT_INVOIC")
    case 3 => Some("C42:FINAL_INVOICE")
    case 4 => Some("C42:1")
    case 5 => Some("C42:WON")
    case 6 => Some("C42:LOSE")
    case 7 => Some("C42:EXECUTING")
    case _ => None
  }

  /** Every stage maps to a status in 0..7 that names it back, and every such status is taken. */
  lemma StagesInvert()
    ensures forall s :: s in Statuses ==> 0 <= Statuses[s] <= 7 && StageOf(Statuses[s]) == Some(s)
    ensures forall v :: 0 <= v <= 7 ==> StageOf(v).Some? && StageOf(v).value in Statuses && Statuses[StageOf(v).value] == v
  {
  }

  /** The eight stages take the eight statuses 0..7, one each; 4 (completed) is "C42:1" and 5 (paid) is "C42:WON". */
  lemma StatusTable()
    ensures |Statuses| == 8
    ensures forall s :: s in Statuses ==> 0 <= Statuses[s] <= 7
    ensures forall s, t :: s in Statuses && t in Statuses && Statuses[s] == Statuses[t] ==> s == t
    ensures forall s :: s in Statuses && Statuses[s] == 4 ==> s == "C42:1"
    ensures forall s :: s in Statuses && Statuses[s] == 5 ==> s == "C42:WON"
  {
    StagesInvert();
    assert Statuses.Keys == {"C42:NEW", "C42:PREPARATION", "C42:PREPAYMENT_INVOIC", "C42:EXECUTING",
                             "C42:FINAL_INVOICE", "C42:1", "C42:LOSE", "C42:WON"};
  }

  /**
   * The deal id carried by the hook's `document_id` list: its third entry reads
   * `DEAL_<id>`, and the id is the text between its first and second underscore. A list
   * shorter than three, or a third entry without an underscore, indexes out of range.
   */
  function DealId(arr: seq<string>): (r: Result<int, Error>)
    ensures r.Failure? && r.error.Panic? <==> |arr| < 3 || '_' !in arr[2]
    ensures r.Failure? ==> r.error.Panic? || r.error == Failed(EditDealOp)
    ensures r.Success? ==> MinInt64 <= r.value <= MaxInt64
  {
    if |arr| < 3 then Failure(Panic("index out of range"))
    else if '_' !in arr[2] then Failure(Panic("index out of range"))
    else
      SplitHasSecondPiece(arr[2], '_');
      var id := ParseInt64(Split(arr[2], '_')[1]);
      if id.None? then Failure(Failed(EditDealOp)) else Success(id.value)
  }

  /** The document id the CRM sends for deal `n` yields `n` back. */
  lemma DealIdRoundTrip(crmModule: string, entity: string, n: int, rest: seq<string>)
    requires MinInt64 <= n <= MaxInt64
    ensures DealId([crmModule, entity, "DEAL_" + FormatInt(n)] + rest) == Success(n)
  {
    var arr := [crmModule, entity, "DEAL_" + FormatInt(n)] + rest;
    assert arr[2] == "DEAL" + ['_'] + FormatInt(n);
    FormatIntChars(n);
    assert '_' !in FormatInt(n);
    SplitAtFirst("DEAL", FormatInt(n), '_');
    SplitWithoutSeparator(FormatInt(n), '_');
    assert Split(arr[2], '_') == ["DEAL", FormatInt(n)];
    ParseFormatRoundTrip(n);
  }

  /**
   * Whatever the third entry holds, the deal id is read from the text between its first
   * and second underscore (or the end): that text parsed, or a wrapped error.
   */
  lemma DealIdBetweenUnderscores(arr: seq<string>, head: string, piece: string, rest: string)
    requires |arr| >= 3 && arr[2] == head + "_" + piece + rest
    requires '_' !in head && '_' !in piece
    requires rest == "" || rest[0] == '_'
    ensures ParseInt64(piece).Some? ==> DealId(arr) == Success(ParseInt64(piece).value)
    ensures ParseInt64(piece).None? ==> DealId(arr) == Failure(Failed(EditDealOp))
  {
    assert arr[2] == head + ['_'] + (piece + rest);
    assert '_' in arr[2] by { assert arr[2][|head|] == '_'; }
    SplitAtFirst(head, piece + rest, '_');
    if rest == "" {
      assert piece + rest == piece;
      SplitWithoutSeparator(piece, '_');
    } else {
      assert piece + rest == piece + ['_'] + rest[1..];
      SplitAtFirst(piece, rest[1..], '_');
    }
    assert Split(arr[2], '_')[1] == piece;
  }

  /** ParseFloat with a failure read as 0, as the hook treats the CRM's payment fields. */
  function Amount(parseFloat: string -> Option<real>, s: string): real
  {
    if parseFloat(s).Some? then parseFloat(s).value else 0.0
  }

  /**
   * What the hook asks UpdateLead to set: the status, the three payments, the completion
   * time when the status is 4 and the payment time when it is 5; nothing else.
   */
  function DealPatch(view: LeadView, status: int, now: nat, parseFloat: string -> Option<real>): (p: LeadStorage.LeadPatch)
    ensures p.statusId == Some(status)
    ensures p.completedAt.Some? <==> status == 4
    ensures p.paymentAt.Some? <==> status == 5
    ensures p.completedAt.Some? ==> p.completedAt.value == now
    ensures p.paymentAt.Some? ==> p.paymentAt.value == now
  {
    LeadStorage.LeadPatch(
      None, Some(status),
      Some(Amount(parseFloat, view.internetPayment)),
      Some(Amount(parseFloat, view.cleaningPayment)),
      Some(Amount(parseFloat, view.shippingPayment)),
      None, None, None, None, None, None, None,
      if status == 4 then Some(now) else None,
      if status == 5 then Some(now) else None)
  }

  /**
   * The hook's update is never empty and never stamps both times; it copies the stage
   * and payments, stamps the completion or payment time for stages 4 and 5 only, and
   * keeps who, what and when the lead was created.
   */
  lemma DealPatchEffect(l: Lead, view: LeadView, status: int, now: nat, parseFloat: string -> Option<real>)
    ensures !LeadStorage.IsEmptyPatch(DealPatch(view, status, now, parseFloat))
    ensures DealPatch(view, status, now, parseFloat).completedAt.None? || DealPatch(view, status, now, parseFloat).paymentAt.None?
    ensures var m := LeadStorage.ApplyPatch(l, DealPatch(view, status, now, parseFloat));
      && m.id == l.id && m.userId == l.userId && m.fio == l.fio && m.address == l.address
      && m.phoneNumber == l.phoneNumber && m.createdAt == l.createdAt
      && m.internet == l.internet && m.cleaning == l.cleaning && m.shipping == l.shipping
      && m.statusId == status
      && m.rewardInternet == Amount(parseFloat, view.internetPayment)
      && m.rewardCleaning == Amount(parseFloat, view.cleaningPayment)
      && m.rewardShipping == Amount(parseFloat, view.shippingPayment)
      && m.completedAt == (if status == 4 then Some(now) else l.completedAt)
      && m.paymentAt == (if status == 5 then Some(now) else l.paymentAt)
  {
  }

  // ---------------------------------------------------------------------------
  // Listing and statistics
  // ---------------------------------------------------------------------------

  /** The owner a listing is restricted to: the filter's, or else the caller's. */
  function ListingUser(ctx: Ctx, filter: LeadFilterDTO): Option<int>
  {
    if filter.userId.Some? then filter.userId else ctx.userId
  }

  /** The repository filter for a listing restricted to `userId`. */
  function StoreFilter(filter: LeadFilterDTO, userId: int): Storage.LeadFilter
  {
    Storage.LeadFilter(filter.statusId, filter.startDate, filter.endDate, filter.limit, filter.offset,
                       Some(userId), filter.search, filter.isInternet, filter.isShipping, filter.isCleaning)
  }

  /** The response shape of a lead: every column of the row, and the given comments. */
  function ToLeadDTO(l: Lead, comments: seq<CommentDTO>): (d: LeadDTO)
    ensures d.comments == comments
    ensures d.id == l.id && d.fio == l.fio && d.address == l.address && d.statusId == l.statusId
    ensures d.phoneNumber == l.phoneNumber && d.internet == l.internet && d.cleaning == l.cleaning
    ensures d.shipping == l.shipping && d.createdAt == l.createdAt
    ensures d.completedAt == l.completedAt && d.paymentAt == l.paymentAt
    ensures d.rewardInternet == l.rewardInternet && d.rewardCleaning == l.rewardCleaning
    ensures d.rewardShipping == l.rewardShipping
  {
    LeadDTO(l.id, l.fio, l.address, l.statusId, l.phoneNumber, l.internet, l.cleaning, l.shipping,
            comments, l.rewardInternet, l.rewardCleaning, l.rewardShipping, l.createdAt, l.completedAt, l.paymentAt)
  }

  datatype Service = Internet | Cleaning | Shipping

  function Reward(l: Lead, s: Service): real
  {
    match s
    case Internet => l.rewardInternet
    case Cleaning => l.rewardCleaning
    case Shipping => l.rewardShipping
  }

  /** The `s` rewards of `ls`, added up in list order. */
  function SumRewards(ls: seq<Lead>, s: Service): real
  {
    if ls == [] then 0.0 else SumRewards(ls[..|ls| - 1], s) + Reward(ls[|ls| - 1], s)
  }

  function SumCosts(rs: seq<Referral>): real
  {
    if rs == [] then 0.0 else SumCosts(rs[..|rs| - 1]) + rs[|rs| - 1].cost
  }

  /** A sum is its first element plus the sum of the rest. */
  lemma {:induction false} SumRewardsFront(ls: seq<Lead>, s: Service)
    requires ls != []
    ensures SumRewards(ls, s) == Reward(ls[0], s) + SumRewards(ls[1..], s)
    decreases |ls|
  {
    if |ls| > 1 {
      SumRewardsFront(ls[..|ls| - 1], s);
      assert ls[..|ls| - 1][1..] == ls[1..][..|ls[1..]| - 1];
      assert ls[..|ls| - 1][0] == ls[0];
    } else {
      assert ls[..0] == [] && ls[1..] == [];
    }
  }

  /** Taking one element out of the middle changes the sum by that element. */
  lemma {:induction false} SumRewardsRemove(ls: seq<Lead>, k: nat, s: Service)
    requires k < |ls|
    ensures SumRewards(ls, s) == SumRewards(ls[..k] + ls[k + 1..], s) + Reward(ls[k], s)
    decreases |ls|
  {
    if k == 0 {
      SumRewardsFront(ls, s);
      assert ls[..0] + ls[1..] == ls[1..];
    } else {
      var rest := ls[..k] + ls[k + 1..];
      SumRewardsFront(ls, s);
      SumRewardsRemove(ls[1..], k - 1, s);
      assert ls[1..][..k - 1] + ls[1..][k..] == rest[1..];
      assert ls[1..][k - 1] == ls[k];
      SumRewardsFront(rest, s);
      assert rest[0] == ls[0];
    }
  }

  /** Taking out position `k` takes one copy of its element out of the multiset. */
  lemma RemoveAtMultiset(b: seq<Lead>, k: nat)
    requires k < |b|
    ensures multiset(b[..k] + b[k + 1..]) == multiset(b) - multiset{b[k]}
  {
    assert b == b[..k] + [b[k]] + b[k + 1..];
    assert multiset(b) == multiset(b[..k]) + multiset{b[k]} + multiset(b[k + 1..]);
  }

  /** Sums do not depend on the order of the rows. */
  lemma {:induction false} SumRewardsPermutation(a: seq<Lead>, b: seq<Lead>, s: Service)
    requires multiset(a) == multiset(b)
    ensures SumRewards(a, s) == SumRewards(b, s)
    decreases |a|
  {
    if a == [] {
      assert |b| == |multiset(b)| == 0;
    } else {
      assert a[0] in multiset(b);
      var k :| 0 <= k < |b| && b[k] == a[0];
      RemoveAtMultiset(a, 0);
      RemoveAtMultiset(b, k);
      assert a[..0] + a[1..] == a[1..];
      SumRewardsPermutation(a[1..], b[..k] + b[k + 1..], s);
      SumRewardsFront(a, s);
      SumRewardsRemove(b, k, s);
    }
  }

  /** Two enumerations of one filter give the same reward sums, whatever order ties take. */
  lemma SumsIgnoreTieOrder(rows: map<int, Lead>, f: Storage.LeadFilter, a: seq<Lead>, b: seq<Lead>, s: Service)
    requires LeadStorage.IsEnumeration(rows, f, a) && LeadStorage.IsEnumeration(rows, f, b)
    ensures SumRewards(a, s) == SumRewards(b, s)
  {
    LeadStorage.EnumerationsArePermutations(rows, f, a, b);
    SumRewardsPermutation(a, b, s);
  }

  /** The statistic of a user's leads and active referrals; the start date is left unset. */
  function Statistic(ls: seq<Lead>, rs: seq<Referral>): (st: UserStatistic)
    ensures st.startDate.None?
    ensures st.total == st.internet + st.cleaning + st.shipping + st.referrals
  {
    var internet := SumRewards(ls, Internet);
    var cleaning := SumRewards(ls, Cleaning);
    var shipping := SumRewards(ls, Shipping);
    var referrals := SumCosts(rs);
    UserStatistic(None, internet, cleaning, shipping, referrals, cleaning + referrals + internet + shipping)
  }

  /** The statistic of two enumerations of one listing is the same, whatever order ties take. */
  lemma StatisticIgnoresTieOrder(rows: map<int, Lead>, f: Storage.LeadFilter, a: seq<Lead>, b: seq<Lead>, rs: seq<Referral>)
    requires LeadStorage.IsEnumeration(rows, f, a) && LeadStorage.IsEnumeration(rows, f, b)
    ensures Statistic(a, rs) == Statistic(b, rs)
  {
    SumsIgnoreTieOrder(rows, f, a, b, Internet);
    SumsIgnoreTieOrder(rows, f, a, b, Cleaning);
    SumsIgnoreTieOrder(rows, f, a, b, Shipping);
  }

  /** The per-service sums of the statistic's first loop, one lead at a time. */
  method TotalRewards(ls: seq<Lead>) returns (internet: real, shipping: real, cleaning: real)
    ensures internet == SumRewards(ls, Internet)
    ensures shipping == SumRewards(ls, Shipping)
    ensures cleaning == SumRewards(ls, Cleaning)
  {
    internet, shipping, cleaning := 0.0, 0.0, 0.0;
    var i := 0;
    while i < |ls|
      invariant 0 <= i <= |ls|
      invariant internet == SumRewards(ls[..i], Internet)
      invariant shipping == SumRewards(ls[..i], Shipping)
      invariant cleaning == SumRewards(ls[..i], Cleaning)
    {
      assert ls[..i + 1][..i] == ls[..i];
      internet := internet + ls[i].rewardInternet;
      shipping := shipping + ls[i].rewardShipping;
      cleaning := cleaning + ls[i].rewardCleaning;
      i := i + 1;
    }
    assert ls[..|ls|] == ls;
  }

  /** The statistic's second loop: what the referrals earned. */
  method TotalCosts(rs: seq<Referral>) returns (total: real)
    ensures total == SumCosts(rs)
  {
    total := 0.0;
    var j := 0;
    while j < |rs|
      invariant 0 <= j <= |rs|
      invariant total == SumCosts(rs[..j])
    {
      assert rs[..j + 1][..j] == rs[..j];
      total := total + rs[j].cost;
      j := j + 1;
    }
    assert rs[..|rs|] == rs;
  }

  /** The listing the statistic is taken over: the user's leads created in the period, unpaged. */
  function StatisticFilter(userId: int, startDate: Option<nat>, endDate: Option<nat>): Storage.LeadFilter
  {
    Storage.LeadFilter(None, startDate, endDate, 0, 0, Some(userId), None, None, None, None)
  }

  /** The active referrals behind a referral code; none found counts as none at all. */
  function EarnedReferrals(referrals: string -> Result<seq<Referral>, Storage.StoreError>, code: string): Option<seq<Referral>>
  {
    var found := referrals(code);
    if found.Success? then Some(found.value)
    else if found.error == Storage.ErrReferralsNotFound then Some([])
    else None
  }

  /** The lead that SaveLead hands to the repository for deal `id`: status 0, the draft's data. */
  function NewLead(id: int, userId: int, draft: CreateLeadDTO): (l: Lead)
    ensures l.id == id && l.userId == userId && l.statusId == 0
    ensures l.fio == draft.name && l.address == draft.address && l.phoneNumber == draft.phoneNumber
    ensures l.internet == draft.isInternet && l.cleaning == draft.isCleaning && l.shipping == draft.isShipping
    ensures l.completedAt.None? && l.paymentAt.None?
    ensures l.rewardInternet == draft.rewardInternet && l.rewardCleaning == draft.rewardCleaning
    ensures l.rewardShipping == draft.rewardShipping
  {
    Lead(id, userId, draft.name, draft.address, 0, draft.phoneNumber, draft.isInternet, draft.isCleaning,
         draft.isShipping, 0, None, None, draft.rewardInternet, draft.rewardCleaning, draft.rewardShipping)
  }

  /**
   * The lead service. It shares the CRM client and the lead repository with its comment
   * service, as the program wires them.
   */
  class LeadService {
    const commentService: CommentService.CommentService
    const leads: LeadStorage.LeadRepository
    const users: int -> Option<User>
    const referrals: string -> Result<seq<Referral>, Storage.StoreError>
    const crm: Crm
    const parseFloat: string -> Option<real>

    ghost predicate Valid()
      reads this, commentService, leads, commentService.comments
    {
      && commentService.leads == leads
      && commentService.crm == crm
      && leads.Valid()
      && commentService.comments.Valid()
    }

    constructor (commentService: CommentService.CommentService, leads: LeadStorage.LeadRepository,
                 users: int -> Option<User>, referrals: string -> Result<seq<Referral>, Storage.StoreError>,
                 crm: Crm, parseFloat: string -> Option<real>)
      requires commentService.leads == leads && commentService.crm == crm
      ensures this.commentService == commentService && this.leads == leads && this.users == users
      ensures this.referrals == referrals && this.crm == crm && this.parseFloat == parseFloat
    {
      this.commentService := commentService;
      this.leads := leads;
      this.users := users;
      this.referrals := referrals;
      this.crm := crm;
      this.parseFloat := parseFloat;
    }

    /**
     * A page of leads in response shape, each with its comments oldest first. Without a
     * user in the filter the listing is the caller's own; no matching lead is an empty
     * list, and so is a lead without comments.
     */
    method Leads(ctx: Ctx, filter: LeadFilterDTO) returns (r: Result<seq<LeadDTO>, Error>, ghost listed: seq<Lead>, ghost notes: seq<seq<Comment>>)
      requires Valid()
      ensures ListingUser(ctx, filter).None? ==> r == Failure(Failed(LeadsOp))
      ensures ListingUser(ctx, filter).Some? ==>
        var f := StoreFilter(filter, ListingUser(ctx, filter).value);
        && (!leads.connected || (f.limit > 0 && f.offset < 0) ==> r == Failure(Failed(LeadsOp)))
        && (leads.connected && commentService.comments.connected && (f.limit > 0 ==> f.offset >= 0) ==> r.Success?)
        && (r.Success? ==>
              && LeadStorage.IsPage(leads.rows, f, listed)
              && |r.value| == |listed| == |notes|
              && forall i :: 0 <= i < |listed| ==>
                   && CommentStorage.IsListing(commentService.comments.rows, listed[i].id, notes[i])
                   && r.value[i] == ToLeadDTO(listed[i], CommentService.ToCommentDTOs(notes[i])))
      ensures r.Success? && filter.userId.None? ==> forall i :: 0 <= i < |listed| ==> listed[i].userId == ctx.userId.value
      ensures r.Failure? ==> r.error == Failed(LeadsOp)
      ensures r.Success? && !commentService.comments.connected ==> r.value == [] && listed == []
    {
      listed, notes := [], [];
      var owner := ListingUser(ctx, filter);
      if owner.None? {
        return Failure(Failed(LeadsOp)), listed, notes;
      }
      var f := StoreFilter(filter, owner.value);
      var found, all := leads.Leads(f);
      var page: seq<Lead>;
      if found.Failure? {
        if found.error == Storage.ErrLeadsNotFound {
          return Success([]), [], [];
        }
        return Failure(Failed(LeadsOp)), listed, notes;
      }
      page := found.value;
      LeadStorage.PageMatches(leads.rows, f, page);
      listed := page;
      var result: seq<LeadDTO> := [];
      var i := 0;
      while i < |page|
        invariant 0 <= i <= |page|
        invariant |result| == i && |notes| == i
        invariant !commentService.comments.connected ==> i == 0
        invariant forall j :: 0 <= j < i ==>
          && CommentStorage.IsListing(commentService.comments.rows, page[j].id, notes[j])
          && result[j] == ToLeadDTO(page[j], CommentService.ToCommentDTOs(notes[j]))
      {
        var cs, stored := commentService.Comments(page[i].id);
        if cs.Failure? {
          if cs.error != ErrCommentsNotFound {
            return Failure(Failed(LeadsOp)), listed, notes;
          }
          notes := notes + [[]];
          result := result + [ToLeadDTO(page[i], [])];
        } else {
          assert cs.value == CommentService.ToCommentDTOs(stored);
          notes := notes + [stored];
          result := result + [ToLeadDTO(page[i], cs.value)];
        }
        i := i + 1;
      }
      r := Success(result);
    }

    /**
     * Submits a lead: the CRM deal is created first and its id becomes the lead's id; the
     * row is then inserted with status 0, and a non-empty comment is posted through the
     * comment service. A failure after the insert does not remove the row.
     */
    method SaveLead(ctx: Ctx, draft: CreateLeadDTO, now: nat) returns (err: Option<Error>, calls: seq<CrmCall>)
      requires Valid()
      modifies leads, commentService.comments
      ensures Valid()
      ensures ctx.userId.None? || users(ctx.userId.value).None? ==>
        && err == Some(Failed(SaveLeadOp)) && calls == []
        && leads.rows == old(leads.rows) && commentService.comments.rows == old(commentService.comments.rows)
      ensures ctx.userId.Some? && users(ctx.userId.value).Some? ==>
        var send := SendDeal(draft, users(ctx.userId.value).value);
        var deal := crm.sendDeal(draft, users(ctx.userId.value).value);
        && |calls| >= 1 && calls[0] == send
        && (deal.None? || !leads.connected || deal.value in old(leads.rows) ==>
              && err == Some(Failed(SaveLeadOp)) && calls == [send]
              && leads.rows == old(leads.rows) && commentService.comments.rows == old(commentService.comments.rows))
        && (deal.Some? && leads.connected && deal.value !in old(leads.rows) ==>
              && leads.rows == old(leads.rows)[deal.value := LeadStorage.Inserted(NewLead(deal.value, ctx.userId.value, draft), now)]
              && (draft.comment == "" ==>
                    err.None? && calls == [send] && commentService.comments.rows == old(commentService.comments.rows))
              && (draft.comment != "" ==>
                    && calls == [send, SendComment(deal.value, draft.comment)]
                    && (err.Some? ==> err.value == Failed(SaveLeadOp) && commentService.comments.rows == old(commentService.comments.rows))
                    && (err.None? ==>
                          exists k :: (k !in old(commentService.comments.rows) &&
                            commentService.comments.rows == old(commentService.comments.rows)[k := Comment(k, deal.value, ctx.userId.value, draft.comment, now)]))
                    && (crm.sendComment(deal.value, draft.comment).None? ==>
                          && err == Some(Failed(SaveLeadOp))
                          && commentService.comments.nextId == old(commentService.comments.nextId))
                    && (crm.sendComment(deal.value, draft.comment).Some? ==>
                          var c := Comment(crm.sendComment(deal.value, draft.comment).value, deal.value, ctx.userId.value, draft.comment, 0);
                          var next := old(commentService.comments.nextId);
                          var k := CommentStorage.TargetId(c, next);
                          && commentService.comments.nextId ==
                               (if commentService.comments.connected && c.id == 0 then next + 1 else next)
                          && (err.None? <==> commentService.comments.connected && k !in old(commentService.comments.rows))
                          && (err.None? ==>
                                commentService.comments.rows == old(commentService.comments.rows)[k := CommentStorage.Stored(c, next, now)]))))
      ensures draft.comment == "" ==> commentService.comments.nextId == old(commentService.comments.nextId)
      ensures ctx.userId.None? || users(ctx.userId.value).None? ==> commentService.comments.nextId == old(commentService.comments.nextId)
      ensures ctx.userId.Some? && users(ctx.userId.value).Some? &&
              (var deal := crm.sendDeal(draft, users(ctx.userId.value).value);
               deal.None? || !leads.connected || deal.value in old(leads.rows)) ==>
        commentService.comments.nextId == old(commentService.comments.nextId)
    {
      calls := [];
      if ctx.userId.None? {
        return Some(Failed(SaveLeadOp)), calls;
      }
      var userId := ctx.userId.value;
      var user := users(userId);
      if user.None? {
        return Some(Failed(SaveLeadOp)), calls;
      }
      calls := [SendDeal(draft, user.value)];
      var deal := crm.sendDeal(draft, user.value);
      if deal.None? {
        return Some(Failed(SaveLeadOp)), calls;
      }
      var lead := NewLead(deal.value, userId, draft);
      var created := leads.CreateLead(lead, now);
      if created.Some? {
        return Some(Failed(SaveLeadOp)), calls;
      }
      if draft.comment != "" {
        ghost var before := commentService.comments.rows;
        ghost var next := commentService.comments.nextId;
        assert commentService.MayComment(ctx, deal.value);
        var saved, sent := commentService.SaveComment(ctx, deal.value, draft.comment, now);
        calls := calls + sent;
        if saved.Failure? {
          return Some(Failed(SaveLeadOp)), calls;
        }
        ghost var c := Comment(crm.sendComment(deal.value, draft.comment).value, deal.value, userId, draft.comment, 0);
        ghost var k := CommentStorage.TargetId(c, next);
        assert k !in before && commentService.comments.rows == before[k := Comment(k, deal.value, userId, draft.comment, now)];
      }
      err := None;
    }

    /** What EditDeal reports for document id list `arr`: a bad id, an unreadable deal or an unknown stage. */
    function DealOutcome(arr: seq<string>): Option<Error>
    {
      var id := DealId(arr);
      if id.Failure? then Some(id.error)
      else
        var view := crm.getLead(id.value);
        if view.None? || view.value.status !in Statuses then Some(Failed(EditDealOp)) else None
    }

    /** The lead table after EditDeal for `arr`: the named lead patched when the hook succeeds and the row exists. */
    function DealRows(rows: map<int, Lead>, arr: seq<string>, now: nat): map<int, Lead>
    {
      if DealOutcome(arr).Some? then rows
      else
        var id := DealId(arr).value;
        var view := crm.getLead(id).value;
        if leads.connected && id in rows
        then rows[id := LeadStorage.ApplyPatch(rows[id], DealPatch(view, Statuses[view.status], now, parseFloat))]
        else rows
    }

    /**
     * The CRM's deal-change hook: the deal named by the document id is fetched and its
     * stage and payments are copied onto the lead with the same id. An unknown stage is
     * an error; a failure of the update itself is not reported.
     */
    method EditDeal(arr: seq<string>, now: nat) returns (err: Option<Error>, calls: seq<CrmCall>)
      requires Valid()
      modifies leads
      ensures Valid()
      ensures err == DealOutcome(arr) && leads.rows == DealRows(old(leads.rows), arr, now)
      ensures DealId(arr).Failure? ==> err == Some(DealId(arr).error) && calls == [] && leads.rows == old(leads.rows)
      ensures DealId(arr).Success? ==>
        var id := DealId(arr).value;
        var view := crm.getLead(id);
        && calls == [GetLead(id)]
        && (view.None? || view.value.status !in Statuses ==>
              err == Some(Failed(EditDealOp)) && leads.rows == old(leads.rows))
        && (view.Some? && view.value.status in Statuses ==>
              && err.None?
              && leads.rows == if leads.connected && id in old(leads.rows)
                               then old(leads.rows)[id := LeadStorage.ApplyPatch(old(leads.rows)[id],
                                      DealPatch(view.value, Statuses[view.value.status], now, parseFloat))]
                               else old(leads.rows))
    {
      calls := [];
      var id := DealId(arr);
      if id.Failure? {
        return Some(id.error), calls;
      }
      calls := [GetLead(id.value)];
      var view := crm.getLead(id.value);
      if view.None? {
        return Some(Failed(EditDealOp)), calls;
      }
      if view.value.status !in Statuses {
        return Some(Failed(EditDealOp)), calls;
      }
      var status := Statuses[view.value.status];
      var patch := DealPatch(view.value, status, now, parseFloat);
      var _ := leads.UpdateLead(Some(id.value), patch);
      err := None;
    }

    /**
     * The rewards a user earned on the leads created in a period, by service, plus what
     * their active referrals earned, and the grand total. No leads and no referrals both
     * count as nothing earned.
     */
    method GetUserPaymentStatistic(userId: int, startDate: Option<nat>, endDate: Option<nat>)
      returns (r: Result<UserStatistic, Error>, ghost listed: seq<Lead>)
      requires Valid()
      ensures !leads.connected || users(userId).None? ==> r == Failure(Failed(StatisticOp))
      ensures leads.connected && users(userId).Some? ==>
        var rs := EarnedReferrals(referrals, users(userId).value.referralCode);
        && (rs.None? ==> r == Failure(Failed(StatisticOp)))
        && (rs.Some? ==>
              && LeadStorage.IsEnumeration(leads.rows, StatisticFilter(userId, startDate, endDate), listed)
              && r == Success(Statistic(listed, rs.value)))
    {
      var f := StatisticFilter(userId, startDate, endDate);
      var found, all := leads.Leads(f);
      listed := all;
      var ls: seq<Lead> := [];
      if found.Failure? {
        if found.error != Storage.ErrLeadsNotFound {
          return Failure(Failed(StatisticOp)), listed;
        }
      } else {
        ls := found.value;
      }
      assert ls == all;
      var user := users(userId);
      if user.None? {
        return Failure(Failed(StatisticOp)), listed;
      }
      var earned := referrals(user.value.referralCode);
      var rs: seq<Referral> := [];
      if earned.Failure? {
        if earned.error != Storage.ErrReferralsNotFound {
          return Failure(Failed(StatisticOp)), listed;
        }
      } else {
        rs := earned.value;
      }
      var internet, shipping, cleaning := TotalRewards(ls);
      var earnedTotal := TotalCosts(rs);
      r := Success(UserStatistic(None, internet, cleaning, shipping, earnedTotal,
                                 cleaning + earnedTotal + internet + shipping));
    }
  }
}
