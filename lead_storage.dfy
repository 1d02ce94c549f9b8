/**
 * The `leads` table and the queries the repository runs against it. The table is a map
 * from lead id to row. The listing and update queries are built the way the repository
 * builds its SQL, clause by clause under a `$n` placeholder counter, and are then
 * evaluated against the table: a WHERE condition reads its argument through its
 * placeholder. That keeps the placeholder bookkeeping meaningful: a condition numbered
 * wrongly would test the wrong value.
 */
module LeadStorage {
  import opened Wrappers
  import opened Text
  import opened Models
  import opened Storage
  import Sets

  /**
   * A query argument. `PatternV(s)` is the search argument `'%' || s || '%'`;
   * `IdV(None)` is a nil id, which SQL compares as NULL and so matches no row.
   */
  datatype Value =
    | IntV(i: int)
    | BoolV(b: bool)
    | TimeV(t: nat)
    | RealV(r: real)
    | TextV(s: string)
    | PatternV(needle: string)
    | IdV(id: Option<int>)

  // ---------------------------------------------------------------------------
  // The listing query
  // ---------------------------------------------------------------------------

  /** The WHERE conditions the listing query can carry, in the order it adds them. */
  datatype CondKind =
    | StatusIs       // status_id = $n
    | CreatedFrom    // created_at >= $n
    | CreatedUntil   // created_at <= $n
    | UserIs         // user_id = $n
    | InternetIs     // internet = $n
    | ShippingIs     // shipping = $n
    | CleaningIs     // cleaning = $n
    | SearchText     // fio, address or phone_number ILIKE $n

  /** A WHERE condition and the number `n` of its `$n` placeholder. */
  datatype Cond = Cond(kind: CondKind, ph: nat)

  /**
   * The listing query: its WHERE conditions, the placeholder of the status-priority
   * key of ORDER BY (when a status is given), the placeholder of LIMIT (OFFSET uses the
   * next one), the argument list and the placeholder counter.
   */
  datatype SelectQuery = SelectQuery(
    conds: seq<Cond>,
    priorityPh: Option<nat>,
    limitPh: Option<nat>,
    args: seq<Value>,
    argCount: nat)

  predicate Holds(kind: CondKind, v: Value, l: Lead)
  {
    match kind
    case StatusIs => v == IntV(l.statusId)
    case CreatedFrom => v.TimeV? && l.createdAt >= v.t
    case CreatedUntil => v.TimeV? && l.createdAt <= v.t
    case UserIs => v == IntV(l.userId)
    case InternetIs => v == BoolV(l.internet)
    case ShippingIs => v == BoolV(l.shipping)
    case CleaningIs => v == BoolV(l.cleaning)
    case SearchText => v.PatternV? && SearchHit(v.needle, l)
  }

  /** The search matches fio, address or phone number, ignoring ASCII case. */
  predicate SearchHit(needle: string, l: Lead)
  {
    ContainsFold(l.fio, needle) || ContainsFold(l.address, needle) || ContainsFold(l.phoneNumber, needle)
  }

  predicate CondHolds(c: Cond, args: seq<Value>, l: Lead)
  {
    1 <= c.ph <= |args| && Holds(c.kind, args[c.ph - 1], l)
  }

  /** The WHERE clause `1=1 AND c1 AND c2 ...` evaluated on one row. */
  predicate WhereHolds(conds: seq<Cond>, args: seq<Value>, l: Lead)
  {
    forall i :: 0 <= i < |conds| ==> CondHolds(conds[i], args, l)
  }

  /** `CASE WHEN status_id = $n THEN 0 ELSE 1 END`, or 0 for every row when there is no such key. */
  function Priority(q: SelectQuery, l: Lead): nat
  {
    if q.priorityPh.Some? && 1 <= q.priorityPh.value <= |q.args| && q.args[q.priorityPh.value - 1] != IntV(l.statusId)
    then 1 else 0
  }

  /** The filter the listing promises: a conjunction of the supplied criteria. */
  predicate MatchesFilter(f: LeadFilter, l: Lead)
  {
    && (f.statusId.Some? ==> l.statusId == f.statusId.value)
    && (f.startDate.Some? ==> l.createdAt >= f.startDate.value)
    && (f.endDate.Some? ==> l.createdAt <= f.endDate.value)
    && (f.userId.Some? ==> l.userId == f.userId.value)
    && (f.isInternet.Some? ==> l.internet == f.isInternet.value)
    && (f.isShipping.Some? ==> l.shipping == f.isShipping.value)
    && (f.isCleaning.Some? ==> l.cleaning == f.isCleaning.value)
    && (f.search.Some? && f.search.value != "" ==> SearchHit(f.search.value, l))
  }

  /** The counter invariant: the i-th condition reads `$(i+1)`, and `argCount` is one past the last argument. */
  predicate Numbered(q: SelectQuery)
  {
    && q.argCount >= 1
    && |q.args| == q.argCount - 1
    && |q.conds| <= |q.args|
    && forall i :: 0 <= i < |q.conds| ==> q.conds[i].ph == i + 1
  }

  lemma WhereIgnoresLaterArgs(conds: seq<Cond>, args: seq<Value>, extra: seq<Value>, l: Lead)
    requires forall i :: 0 <= i < |conds| ==> 1 <= conds[i].ph <= |args|
    ensures WhereHolds(conds, args + extra, l) <==> WhereHolds(conds, args, l)
  {
    forall i | 0 <= i < |conds|
      ensures CondHolds(conds[i], args + extra, l) <==> CondHolds(conds[i], args, l)
    {
      assert (args + extra)[conds[i].ph - 1] == args[conds[i].ph - 1];
    }
  }

  /** The WHERE clause of `q` selects exactly the rows filter `g` describes. */
  ghost predicate Denotes(q: SelectQuery, g: LeadFilter)
  {
    forall l :: WhereHolds(q.conds, q.args, l) <==> MatchesFilter(g, l)
  }

  /** The WHERE argument the filter supplies for a criterion; `None` when the criterion is absent. */
  function Criterion(f: LeadFilter, kind: CondKind): Option<Value>
  {
    match kind
    case StatusIs => if f.statusId.Some? then Some(IntV(f.statusId.value)) else None
    case CreatedFrom => if f.startDate.Some? then Some(TimeV(f.startDate.value)) else None
    case CreatedUntil => if f.endDate.Some? then Some(TimeV(f.endDate.value)) else None
    case UserIs => if f.userId.Some? then Some(IntV(f.userId.value)) else None
    case InternetIs => if f.isInternet.Some? then Some(BoolV(f.isInternet.value)) else None
    case ShippingIs => if f.isShipping.Some? then Some(BoolV(f.isShipping.value)) else None
    case CleaningIs => if f.isCleaning.Some? then Some(BoolV(f.isCleaning.value)) else None
    case SearchText => if f.search.Some? && f.search.value != "" then Some(PatternV(f.search.value)) else None
  }

  /** `g` with the criterion `kind` copied from `f`. */
  ghost function With(g: LeadFilter, f: LeadFilter, kind: CondKind): LeadFilter
  {
    match kind
    case StatusIs => g.(statusId := f.statusId)
    case CreatedFrom => g.(startDate := f.startDate)
    case CreatedUntil => g.(endDate := f.endDate)
    case UserIs => g.(userId := f.userId)
    case InternetIs => g.(isInternet := f.isInternet)
    case ShippingIs => g.(isShipping := f.isShipping)
    case CleaningIs => g.(isCleaning := f.isCleaning)
    case SearchText => g.(search := f.search)
  }

  /** Adding an absent criterion to a filter narrows it by exactly that criterion. */
  lemma WithNarrows(g: LeadFilter, f: LeadFilter, kind: CondKind, l: Lead)
    requires Criterion(g, kind).None?
    ensures MatchesFilter(With(g, f, kind), l) <==>
      MatchesFilter(g, l) && (Criterion(f, kind).Some? ==> Holds(kind, Criterion(f, kind).value, l))
  {
  }

  /**
   * One `if <criterion> != nil` step of the builder: adds ` AND <kind> $argCount`,
   * appends the argument and advances the counter when the criterion is supplied.
   * The ghost filter `g` is what the WHERE clause selected before the step.
   */
  method AddCond(q: SelectQuery, kind: CondKind, arg: Option<Value>, ghost f: LeadFilter, ghost g: LeadFilter)
    returns (q': SelectQuery)
    requires Numbered(q) && |q.conds| == |q.args| && q.priorityPh.None? && q.limitPh.None?
    requires arg == Criterion(f, kind) && Criterion(g, kind).None?
    requires Denotes(q, g)
    ensures Numbered(q') && |q'.conds| == |q'.args| && q'.priorityPh.None? && q'.limitPh.None?
    ensures |q'.conds| == |q.conds| + (if arg.Some? then 1 else 0)
    ensures Denotes(q', With(g, f, kind))
  {
    forall l ensures MatchesFilter(With(g, f, kind), l) <==> MatchesFilter(g, l) && (arg.Some? ==> Holds(kind, arg.value, l)) {
      WithNarrows(g, f, kind, l);
    }
    if arg.None? {
      return q;
    }
    var v := arg.value;
    q' := q.(conds := q.conds + [Cond(kind, q.argCount)], args := q.args + [v], argCount := q.argCount + 1);
    forall l
      ensures WhereHolds(q'.conds, q'.args, l) <==> WhereHolds(q.conds, q.args, l) && Holds(kind, v, l)
    {
      WhereIgnoresLaterArgs(q.conds, q.args, [v], l);
      assert CondHolds(q'.conds[|q.conds|], q'.args, l) <==> Holds(kind, v, l);
      if WhereHolds(q.conds, q.args + [v], l) && Holds(kind, v, l) {
        forall i | 0 <= i < |q'.conds| ensures CondHolds(q'.conds[i], q'.args, l) {
          if i < |q.conds| {
            assert q'.conds[i] == q.conds[i];
          }
        }
      }
      if WhereHolds(q'.conds, q'.args, l) {
        forall i | 0 <= i < |q.conds| ensures CondHolds(q.conds[i], q.args + [v], l) {
          assert q'.conds[i] == q.conds[i];
        }
        assert CondHolds(q'.conds[|q.conds|], q'.args, l);
      }
    }
  }

  /** The WHERE part of the listing query: one condition per supplied filter field, in the repository's order. */
  method BuildWhere(f: LeadFilter) returns (q: SelectQuery)
    ensures Numbered(q) && |q.conds| == |q.args| && q.priorityPh.None? && q.limitPh.None?
    ensures Denotes(q, f)
  {
    q := SelectQuery([], None, None, [], 1);
    // `g` is the part of `f` the conditions so far express
    ghost var g := f.(statusId := None, startDate := None, endDate := None, userId := None,
                      isInternet := None, isShipping := None, isCleaning := None, search := None);
    q := AddCond(q, StatusIs, Criterion(f, StatusIs), f, g);
    g := With(g, f, StatusIs);
    q := AddCond(q, CreatedFrom, Criterion(f, CreatedFrom), f, g);
    g := With(g, f, CreatedFrom);
    q := AddCond(q, CreatedUntil, Criterion(f, CreatedUntil), f, g);
    g := With(g, f, CreatedUntil);
    q := AddCond(q, UserIs, Criterion(f, UserIs), f, g);
    g := With(g, f, UserIs);
    q := AddCond(q, InternetIs, Criterion(f, InternetIs), f, g);
    g := With(g, f, InternetIs);
    q := AddCond(q, ShippingIs, Criterion(f, ShippingIs), f, g);
    g := With(g, f, ShippingIs);
    q := AddCond(q, CleaningIs, Criterion(f, CleaningIs), f, g);
    g := With(g, f, CleaningIs);
    q := AddCond(q, SearchText, Criterion(f, SearchText), f, g);
    g := With(g, f, SearchText);
    assert g == f;
  }

  /**
   * Builds the listing query from the filter, in the repository's order: the WHERE
   * conditions, the status-priority ORDER BY key, then LIMIT and OFFSET when the limit
   * is positive. Every argument sits under the placeholder its clause names, and the
   * WHERE clause selects exactly the rows the filter describes. The status-priority key
   * is the same (0) on every selected row, since the WHERE clause already pins the status.
   */
  method BuildSelect(f: LeadFilter) returns (q: SelectQuery)
    ensures Numbered(q)
    ensures forall l :: WhereHolds(q.conds, q.args, l) <==> MatchesFilter(f, l)
    ensures q.priorityPh.Some? <==> f.statusId.Some?
    ensures q.priorityPh.Some? ==>
      && q.priorityPh.value == |q.conds| + 1 <= |q.args|
      && q.args[q.priorityPh.value - 1] == IntV(f.statusId.value)
    ensures forall l :: WhereHolds(q.conds, q.args, l) ==> Priority(q, l) == 0
    ensures q.limitPh.Some? <==> f.limit > 0
    ensures q.limitPh.Some? ==>
      && q.limitPh.value == |q.conds| + (if f.statusId.Some? then 1 else 0) + 1
      && q.limitPh.value + 1 == |q.args|
      && q.args[q.limitPh.value - 1] == IntV(f.limit)
      && q.args[q.limitPh.value] == IntV(f.offset)
  {
    q := BuildWhere(f);
    ghost var whereArgs := q.args;
    if f.statusId.Some? {
      q := q.(priorityPh := Some(q.argCount), args := q.args + [IntV(f.statusId.value)], argCount := q.argCount + 1);
    }
    if f.limit > 0 {
      q := q.(limitPh := Some(q.argCount), args := q.args + [IntV(f.limit)], argCount := q.argCount + 1);
      q := q.(args := q.args + [IntV(f.offset)], argCount := q.argCount + 1);
    }
    assert q.args == whereArgs + q.args[|whereArgs|..];
    forall l ensures WhereHolds(q.conds, q.args, l) <==> MatchesFilter(f, l) {
      WhereIgnoresLaterArgs(q.conds, whereArgs, q.args[|whereArgs|..], l);
      assert WhereHolds(q.conds, whereArgs, l) <==> MatchesFilter(f, l);
    }
    forall l | WhereHolds(q.conds, q.args, l) ensures Priority(q, l) == 0 {
      assert MatchesFilter(f, l);
    }
  }

  // ---------------------------------------------------------------------------
  // Ordering and paging of the listing
  // ---------------------------------------------------------------------------

  /** `ORDER BY created_at DESC`; the order of rows created at the same instant is left open. */
  predicate SortedNewestFirst(s: seq<Lead>)
  {
    forall i, j :: 0 <= i < j < |s| ==> s[i].createdAt >= s[j].createdAt
  }

  /** Inserts a row before the first row that is not newer than it. */
  function InsertNewest(s: seq<Lead>, x: Lead): (r: seq<Lead>)
    ensures multiset(r) == multiset(s) + multiset{x}
    decreases |s|
  {
    if s == [] then [x]
    else if x.createdAt >= s[0].createdAt then [x] + s
    else
      assert s == [s[0]] + s[1..];
      [s[0]] + InsertNewest(s[1..], x)
  }

  lemma InsertMembers(s: seq<Lead>, x: Lead)
    ensures forall y :: y in InsertNewest(s, x) <==> y in s || y == x
  {
    var r := InsertNewest(s, x);
    forall y ensures y in r <==> y in s || y == x {
      assert y in r <==> y in multiset(r);
      assert y in s <==> y in multiset(s);
    }
  }

  lemma {:induction false} InsertKeepsOrder(s: seq<Lead>, x: Lead)
    requires SortedNewestFirst(s)
    ensures SortedNewestFirst(InsertNewest(s, x))
    decreases |s|
  {
    if s != [] && x.createdAt < s[0].createdAt {
      InsertKeepsOrder(s[1..], x);
      InsertMembers(s[1..], x);
      var rest := InsertNewest(s[1..], x);
      forall j | 0 <= j < |rest| ensures s[0].createdAt >= rest[j].createdAt {
        assert rest[j] in rest;
      }
    }
  }

  lemma {:induction false} InsertKeepsDistinct(s: seq<Lead>, x: Lead)
    requires Sets.NoDuplicates(s) && x !in s
    ensures Sets.NoDuplicates(InsertNewest(s, x))
    decreases |s|
  {
    if s != [] && x.createdAt < s[0].createdAt {
      assert s == [s[0]] + s[1..];
      InsertKeepsDistinct(s[1..], x);
      InsertMembers(s[1..], x);
      var rest := InsertNewest(s[1..], x);
      forall j | 0 <= j < |rest| ensures s[0] != rest[j] {
        assert rest[j] in rest;
      }
    }
  }

  /** The rows a listing with filter `f` must enumerate, each once, newest first. */
  ghost predicate IsEnumeration(rows: map<int, Lead>, f: LeadFilter, s: seq<Lead>)
  {
    && SortedNewestFirst(s)
    && (forall i, j :: 0 <= i < j < |s| ==> s[i].id != s[j].id)
    && (forall l :: l in s <==> l.id in rows && rows[l.id] == l && MatchesFilter(f, l))
  }

  function Min(a: int, b: int): int { if a <= b then a else b }

  /**
   * `LIMIT limit OFFSET offset` when `limit > 0`: the first `offset` rows are skipped and
   * at most `limit` follow; a limit of 0 or less leaves the rows as they are.
   */
  function Window(all: seq<Lead>, limit: int, offset: int): (page: seq<Lead>)
    requires limit > 0 ==> offset >= 0
    ensures limit <= 0 ==> page == all
    ensures limit > 0 ==> |page| == if offset >= |all| then 0 else Min(limit, |all| - offset)
    ensures limit > 0 ==> forall i :: 0 <= i < |page| ==> page[i] == all[offset + i]
  {
    if limit <= 0 then all
    else if offset >= |all| then []
    else all[offset..offset + Min(limit, |all| - offset)]
  }

  /** `page` is what the listing may return for `f`, for some order of equally old rows. */
  ghost predicate IsPage(rows: map<int, Lead>, f: LeadFilter, page: seq<Lead>)
  {
    exists all :: IsEnumeration(rows, f, all) && (f.limit > 0 ==> f.offset >= 0) && page == Window(all, f.limit, f.offset)
  }

  /** Every row of a page is a stored row that matches the filter. */
  lemma PageMatches(rows: map<int, Lead>, f: LeadFilter, page: seq<Lead>)
    requires IsPage(rows, f, page)
    ensures forall i :: 0 <= i < |page| ==> page[i].id in rows && rows[page[i].id] == page[i] && MatchesFilter(f, page[i])
  {
    var all :| IsEnumeration(rows, f, all) && (f.limit > 0 ==> f.offset >= 0) && page == Window(all, f.limit, f.offset);
    forall i | 0 <= i < |page|
      ensures page[i].id in rows && rows[page[i].id] == page[i] && MatchesFilter(f, page[i])
    {
      if f.limit > 0 {
        assert page[i] == all[f.offset + i];
      }
      assert page[i] in all;
    }
  }

  /** Two enumerations of one filter differ only in the order of equally old rows. */
  lemma EnumerationsArePermutations(rows: map<int, Lead>, f: LeadFilter, a: seq<Lead>, b: seq<Lead>)
    requires IsEnumeration(rows, f, a) && IsEnumeration(rows, f, b)
    ensures multiset(a) == multiset(b)
  {
    forall x ensures multiset(a)[x] == multiset(b)[x] {
      Sets.DistinctCount(a, x);
      Sets.DistinctCount(b, x);
    }
  }

  // ---------------------------------------------------------------------------
  // The sparse update
  // ---------------------------------------------------------------------------

  /** The columns UpdateLead can set. */
  datatype Field =
    | UserIdF | StatusIdF | FioF | PhoneNumberF | AddressF | InternetF | CleaningF | ShippingF
    | RewardInternetF | RewardCleaningF | RewardShippingF | CreatedAtF | CompletedAtF | PaymentAtF

  /** ` <field> = $n` */
  datatype SetClause = SetClause(field: Field, ph: nat)

  datatype UpdateQuery = UpdateQuery(sets: seq<SetClause>, args: seq<Value>, argCount: nat)

  /** The optional new values of UpdateLead, in its parameter order; `None` is a nil field. */
  datatype LeadPatch = LeadPatch(
    userId: Option<int>,
    statusId: Option<int>,
    rewardInternet: Option<real>,
    rewardCleaning: Option<real>,
    rewardShipping: Option<real>,
    fio: Option<string>,
    phoneNumber: Option<string>,
    address: Option<string>,
    internet: Option<bool>,
    cleaning: Option<bool>,
    shipping: Option<bool>,
    createdAt: Option<nat>,
    completedAt: Option<nat>,
    paymentAt: Option<nat>)

  predicate IsEmptyPatch(p: LeadPatch)
  {
    p == LeadPatch(None, None, None, None, None, None, None, None, None, None, None, None, None, None)
  }

  /** The update UpdateLead promises: every supplied field replaced, every other kept. */
  function ApplyPatch(l: Lead, p: LeadPatch): Lead
  {
    l.(userId := if p.userId.Some? then p.userId.value else l.userId,
       statusId := if p.statusId.Some? then p.statusId.value else l.statusId,
       fio := if p.fio.Some? then p.fio.value else l.fio,
       phoneNumber := if p.phoneNumber.Some? then p.phoneNumber.value else l.phoneNumber,
       address := if p.address.Some? then p.address.value else l.address,
       internet := if p.internet.Some? then p.internet.value else l.internet,
       cleaning := if p.cleaning.Some? then p.cleaning.value else l.cleaning,
       shipping := if p.shipping.Some? then p.shipping.value else l.shipping,
       rewardInternet := if p.rewardInternet.Some? then p.rewardInternet.value else l.rewardInternet,
       rewardCleaning := if p.rewardCleaning.Some? then p.rewardCleaning.value else l.rewardCleaning,
       rewardShipping := if p.rewardShipping.Some? then p.rewardShipping.value else l.rewardShipping,
       createdAt := if p.createdAt.Some? then p.createdAt.value else l.createdAt,
       completedAt := if p.completedAt.Some? then p.completedAt else l.completedAt,
       paymentAt := if p.paymentAt.Some? then p.paymentAt else l.paymentAt)
  }

  /** One SET clause applied to a row; an argument of the wrong kind leaves the column alone. */
  function SetField(l: Lead, field: Field, v: Value): Lead
  {
    match field
    case UserIdF => if v.IntV? then l.(userId := v.i) else l
    case StatusIdF => if v.IntV? then l.(statusId := v.i) else l
    case FioF => if v.TextV? then l.(fio := v.s) else l
    case PhoneNumberF => if v.TextV? then l.(phoneNumber := v.s) else l
    case AddressF => if v.TextV? then l.(address := v.s) else l
    case InternetF => if v.BoolV? then l.(internet := v.b) else l
    case CleaningF => if v.BoolV? then l.(cleaning := v.b) else l
    case ShippingF => if v.BoolV? then l.(shipping := v.b) else l
    case RewardInternetF => if v.RealV? then l.(rewardInternet := v.r) else l
    case RewardCleaningF => if v.RealV? then l.(rewardCleaning := v.r) else l
    case RewardShippingF => if v.RealV? then l.(rewardShipping := v.r) else l
    case CreatedAtF => if v.TimeV? then l.(createdAt := v.t) else l
    case CompletedAtF => if v.TimeV? then l.(completedAt := Some(v.t)) else l
    case PaymentAtF => if v.TimeV? then l.(paymentAt := Some(v.t)) else l
  }

  /** `SET c1, c2, ...` applied left to right, each clause reading its placeholder. */
  function ApplySets(l: Lead, sets: seq<SetClause>, args: seq<Value>): Lead
    decreases |sets|
  {
    if sets == [] then l
    else
      var last := sets[|sets| - 1];
      var prior := ApplySets(l, sets[..|sets| - 1], args);
      if 1 <= last.ph <= |args| then SetField(prior, last.field, args[last.ph - 1]) else prior
  }

  predicate SetsNumbered(u: UpdateQuery)
  {
    && u.argCount >= 1
    && |u.args| == u.argCount - 1
    && |u.sets| == |u.args|
    && forall i :: 0 <= i < |u.sets| ==> u.sets[i].ph == i + 1
  }

  lemma {:induction false} SetsIgnoreLaterArgs(l: Lead, sets: seq<SetClause>, args: seq<Value>, extra: seq<Value>)
    requires forall i :: 0 <= i < |sets| ==> 1 <= sets[i].ph <= |args|
    ensures ApplySets(l, sets, args + extra) == ApplySets(l, sets, args)
    decreases |sets|
  {
    if sets != [] {
      SetsIgnoreLaterArgs(l, sets[..|sets| - 1], args, extra);
      var last := sets[|sets| - 1];
      assert (args + extra)[last.ph - 1] == args[last.ph - 1];
    }
  }

  /** The SET argument the patch supplies for a column; `None` for a nil field. */
  function PatchArg(p: LeadPatch, field: Field): Option<Value>
  {
    match field
    case UserIdF => if p.userId.Some? then Some(IntV(p.userId.value)) else None
    case StatusIdF => if p.statusId.Some? then Some(IntV(p.statusId.value)) else None
    case FioF => if p.fio.Some? then Some(TextV(p.fio.value)) else None
    case PhoneNumberF => if p.phoneNumber.Some? then Some(TextV(p.phoneNumber.value)) else None
    case AddressF => if p.address.Some? then Some(TextV(p.address.value)) else None
    case InternetF => if p.internet.Some? then Some(BoolV(p.internet.value)) else None
    case CleaningF => if p.cleaning.Some? then Some(BoolV(p.cleaning.value)) else None
    case ShippingF => if p.shipping.Some? then Some(BoolV(p.shipping.value)) else None
    case RewardInternetF => if p.rewardInternet.Some? then Some(RealV(p.rewardInternet.value)) else None
    case RewardCleaningF => if p.rewardCleaning.Some? then Some(RealV(p.rewardCleaning.value)) else None
    case RewardShippingF => if p.rewardShipping.Some? then Some(RealV(p.rewardShipping.value)) else None
    case CreatedAtF => if p.createdAt.Some? then Some(TimeV(p.createdAt.value)) else None
    case CompletedAtF => if p.completedAt.Some? then Some(TimeV(p.completedAt.value)) else None
    case PaymentAtF => if p.paymentAt.Some? then Some(TimeV(p.paymentAt.value)) else None
  }

  /** The position of a column in the SET list the update builds. */
  function Rank(field: Field): nat
  {
    match field
    case UserIdF => 0
    case StatusIdF => 1
    case FioF => 2
    case PhoneNumberF => 3
    case AddressF => 4
    case InternetF => 5
    case CleaningF => 6
    case ShippingF => 7
    case RewardInternetF => 8
    case RewardCleaningF => 9
    case RewardShippingF => 10
    case CreatedAtF => 11
    case CompletedAtF => 12
    case PaymentAtF => 13
  }

  /** `p` with only its first `n` columns, in SET order, kept. */
  function Prefix(p: LeadPatch, n: nat): LeadPatch
  {
    LeadPatch(
      if n > 0 then p.userId else None,
      if n > 1 then p.statusId else None,
      if n > 8 then p.rewardInternet else None,
      if n > 9 then p.rewardCleaning else None,
      if n > 10 then p.rewardShipping else None,
      if n > 2 then p.fio else None,
      if n > 3 then p.phoneNumber else None,
      if n > 4 then p.address else None,
      if n > 5 then p.internet else None,
      if n > 6 then p.cleaning else None,
      if n > 7 then p.shipping else None,
      if n > 11 then p.createdAt else None,
      if n > 12 then p.completedAt else None,
      if n > 13 then p.paymentAt else None)
  }

  /** Each further column of the patch is one further SET clause, or none for a nil field. */
  lemma PrefixStep(p: LeadPatch, field: Field, l: Lead)
    ensures ApplyPatch(l, Prefix(p, Rank(field) + 1)) ==
      if PatchArg(p, field).Some? then SetField(ApplyPatch(l, Prefix(p, Rank(field))), field, PatchArg(p, field).value)
      else ApplyPatch(l, Prefix(p, Rank(field)))
  {
    match field
    case UserIdF => {}
    case StatusIdF => {}
    case FioF => {}
    case PhoneNumberF => {}
    case AddressF => {}
    case InternetF => {}
    case CleaningF => {}
    case ShippingF => {}
    case RewardInternetF => {}
    case RewardCleaningF => {}
    case RewardShippingF => {}
    case CreatedAtF => {}
    case CompletedAtF => {}
    case PaymentAtF => {}
  }

  /** Applying the SET list of `u` is the sparse patch `d`. */
  ghost predicate Covers(u: UpdateQuery, d: LeadPatch)
  {
    forall l :: ApplySets(l, u.sets, u.args) == ApplyPatch(l, d)
  }

  /**
   * The `addClause` closure, for the `if <field> != nil` step of one column:
   * ` field = $argCount`, its argument and the counter advanced, when the field is supplied.
   */
  method AddClause(u: UpdateQuery, field: Field, arg: Option<Value>, ghost p: LeadPatch, ghost n: nat)
    returns (u': UpdateQuery)
    requires SetsNumbered(u)
    requires arg == PatchArg(p, field) && n == Rank(field)
    requires Covers(u, Prefix(p, n))
    ensures SetsNumbered(u')
    ensures Covers(u', Prefix(p, n + 1))
    ensures |u'.sets| == 0 <==> |u.sets| == 0 && arg.None?
  {
    forall l ensures ApplyPatch(l, Prefix(p, n + 1)) ==
      if arg.Some? then SetField(ApplyPatch(l, Prefix(p, n)), field, arg.value) else ApplyPatch(l, Prefix(p, n))
    {
      PrefixStep(p, field, l);
    }
    if arg.None? {
      return u;
    }
    u' := UpdateQuery(u.sets + [SetClause(field, u.argCount)], u.args + [arg.value], u.argCount + 1);
    forall l ensures ApplySets(l, u'.sets, u'.args) == SetField(ApplySets(l, u.sets, u.args), field, arg.value) {
      assert u'.sets[..|u'.sets| - 1] == u.sets;
      SetsIgnoreLaterArgs(l, u.sets, u.args, [arg.value]);
    }
  }

  /** The clauses for the owner, status, contact and service columns (the first eight). */
  method AddLeadClauses(u: UpdateQuery, p: LeadPatch) returns (u': UpdateQuery)
    requires SetsNumbered(u) && Covers(u, Prefix(p, 0))
    ensures SetsNumbered(u') && Covers(u', Prefix(p, 8))
    ensures |u'.sets| == 0 <==> |u.sets| == 0 && PatchArg(p, UserIdF).None? && PatchArg(p, StatusIdF).None? && PatchArg(p, FioF).None? && PatchArg(p, PhoneNumberF).None? && PatchArg(p, AddressF).None? && PatchArg(p, InternetF).None? && PatchArg(p, CleaningF).None? && PatchArg(p, ShippingF).None?
  {
    u' := u;
    u' := AddClause(u', UserIdF, PatchArg(p, UserIdF), p, 0);
    u' := AddClause(u', StatusIdF, PatchArg(p, StatusIdF), p, 1);
    u' := AddClause(u', FioF, PatchArg(p, FioF), p, 2);
    u' := AddClause(u', PhoneNumberF, PatchArg(p, PhoneNumberF), p, 3);
    u' := AddClause(u', AddressF, PatchArg(p, AddressF), p, 4);
    u' := AddClause(u', InternetF, PatchArg(p, InternetF), p, 5);
    u' := AddClause(u', CleaningF, PatchArg(p, CleaningF), p, 6);
    u' := AddClause(u', ShippingF, PatchArg(p, ShippingF), p, 7);
  }

  /** The clauses for the reward and date columns (the last six). */
  method AddRewardAndDateClauses(u: UpdateQuery, p: LeadPatch) returns (u': UpdateQuery)
    requires SetsNumbered(u) && Covers(u, Prefix(p, 8))
    ensures SetsNumbered(u') && Covers(u', Prefix(p, 14))
    ensures |u'.sets| == 0 <==> |u.sets| == 0 && PatchArg(p, RewardInternetF).None? && PatchArg(p, RewardCleaningF).None? && PatchArg(p, RewardShippingF).None? && PatchArg(p, CreatedAtF).None? && PatchArg(p, CompletedAtF).None? && PatchArg(p, PaymentAtF).None?
  {
    u' := u;
    u' := AddClause(u', RewardInternetF, PatchArg(p, RewardInternetF), p, 8);
    u' := AddClause(u', RewardCleaningF, PatchArg(p, RewardCleaningF), p, 9);
    u' := AddClause(u', RewardShippingF, PatchArg(p, RewardShippingF), p, 10);
    u' := AddClause(u', CreatedAtF, PatchArg(p, CreatedAtF), p, 11);
    u' := AddClause(u', CompletedAtF, PatchArg(p, CompletedAtF), p, 12);
    u' := AddClause(u', PaymentAtF, PatchArg(p, PaymentAtF), p, 13);
  }

  /**
   * Builds the SET list of the update from the non-nil fields, in the repository's
   * column order. Applying it to a row is exactly the sparse patch, it is empty exactly
   * when every field is nil, and the WHERE placeholder that follows is `$(clauses + 1)`.
   */
  method BuildUpdate(p: LeadPatch) returns (u: UpdateQuery)
    ensures SetsNumbered(u)
    ensures u.argCount == |u.sets| + 1
    ensures |u.sets| == 0 <==> IsEmptyPatch(p)
    ensures Covers(u, p)
  {
    u := UpdateQuery([], [], 1);
    assert Covers(u, Prefix(p, 0));
    u := AddLeadClauses(u, p);
    u := AddRewardAndDateClauses(u, p);
    assert Prefix(p, 14) == p;
  }

  /** The row CreateLead writes: the nine columns it names; the rest take their column defaults. */
  function Inserted(lead: Lead, now: nat): Lead
  {
    Lead(lead.id, lead.userId, lead.fio, lead.address, lead.statusId, lead.phoneNumber,
         lead.internet, lead.cleaning, lead.shipping, now, None, None, 0.0, 0.0, 0.0)
  }

  /** The row LeadByID reads back: its SELECT list leaves out the reward columns. */
  function WithoutRewards(l: Lead): Lead
  {
    l.(rewardInternet := 0.0, rewardCleaning := 0.0, rewardShipping := 0.0)
  }

  const LeadByIdOp := "storage.leads.GetLeadByID"
  const CreateLeadOp := "storage.leads.CreateLead"
  const LeadsOp := "storage.leads.GetLeads"
  const UpdateLeadOp := "storage.leads.UpdateLead"
  const DeleteLeadOp := "storage.leads.DeleteLead"

  /**
   * The lead repository over the `leads` table. `connected` false stands for a database
   * that fails every statement it is sent.
   */
  class LeadRepository {
    var rows: map<int, Lead>
    const connected: bool

    /** Every row is stored under its own id (the primary key). */
    ghost predicate Valid()
      reads this
    {
      forall k :: k in rows ==> rows[k].id == k
    }

    constructor (initial: map<int, Lead>, connected: bool)
      requires forall k :: k in initial ==> initial[k].id == k
      ensures Valid() && rows == initial && this.connected == connected
    {
      rows := initial;
      this.connected := connected;
    }

    method LeadByID(id: int) returns (r: Result<Lead, StoreError>)
      requires Valid()
      ensures !connected ==> r == Failure(DbError(LeadByIdOp))
      ensures connected && id !in rows ==> r == Failure(ErrLeadNotFound)
      ensures connected && id in rows ==> r == Success(WithoutRewards(rows[id]))
    {
      if !connected {
        return Failure(DbError(LeadByIdOp));
      }
      if id !in rows {
        return Failure(ErrLeadNotFound);
      }
      r := Success(WithoutRewards(rows[id]));
    }

    /** Inserts the row under the caller-supplied id; an id already present violates the primary key. */
    method CreateLead(lead: Lead, now: nat) returns (err: Option<StoreError>)
      requires Valid()
      modifies this
      ensures Valid()
      ensures !connected || lead.id in old(rows) ==> err == Some(DbError(CreateLeadOp)) && rows == old(rows)
      ensures connected && lead.id !in old(rows) ==> err.None? && rows == old(rows)[lead.id := Inserted(lead, now)]
    {
      if !connected || lead.id in rows {
        return Some(DbError(CreateLeadOp));
      }
      rows := rows[lead.id := Inserted(lead, now)];
      err := None;
    }

    /**
     * The filtered, ordered and paged listing. On a working database with a usable
     * OFFSET (PostgreSQL refuses a negative one), `all` is the full ordered match list and
     * the result is its window, or `ErrLeadsNotFound` when the window is empty.
     */
    method Leads(f: LeadFilter) returns (r: Result<seq<Lead>, StoreError>, ghost all: seq<Lead>)
      requires Valid()
      ensures !connected || (f.limit > 0 && f.offset < 0) ==> r == Failure(DbError(LeadsOp))
      ensures connected && (f.limit > 0 ==> f.offset >= 0) ==>
        && IsEnumeration(rows, f, all)
        && r == (if Window(all, f.limit, f.offset) == [] then Failure(ErrLeadsNotFound)
                 else Success(Window(all, f.limit, f.offset)))
      ensures r.Success? ==> IsPage(rows, f, r.value) && r.value != []
      ensures r == Failure(ErrLeadsNotFound) ==> IsPage(rows, f, [])
    {
      var q := BuildSelect(f);
      all := [];
      if !connected || (f.limit > 0 && f.offset < 0) {
        return Failure(DbError(LeadsOp)), all;
      }
      var pending := rows.Keys;
      var acc: seq<Lead> := [];
      while pending != {}
        invariant pending <= rows.Keys
        invariant SortedNewestFirst(acc) && Sets.NoDuplicates(acc)
        invariant forall l :: l in acc ==> l.id in rows && rows[l.id] == l && l.id !in pending && MatchesFilter(f, l)
        invariant forall k :: k in rows && k !in pending && MatchesFilter(f, rows[k]) ==> rows[k] in acc
        decreases pending
      {
        Sets.HasMember(pending);
        var k :| k in pending;
        pending := pending - {k};
        if WhereHolds(q.conds, q.args, rows[k]) {
          InsertMembers(acc, rows[k]);
          InsertKeepsOrder(acc, rows[k]);
          InsertKeepsDistinct(acc, rows[k]);
          acc := InsertNewest(acc, rows[k]);
        }
      }
      all := acc;
      var page := Window(acc, f.limit, f.offset);
      if page == [] {
        r := Failure(ErrLeadsNotFound);
      } else {
        r := Success(page);
      }
    }

    /**
     * `UPDATE leads SET ... WHERE id = $n`: only the supplied columns of row `id` change.
     * With nothing to set it returns at once, without touching the database.
     */
    method UpdateLead(id: Option<int>, p: LeadPatch) returns (err: Option<StoreError>)
      requires Valid()
      modifies this
      ensures Valid()
      ensures IsEmptyPatch(p) ==> err.None? && rows == old(rows)
      ensures !IsEmptyPatch(p) && !connected ==> err == Some(DbError(UpdateLeadOp)) && rows == old(rows)
      ensures !IsEmptyPatch(p) && connected ==>
        && err.None?
        && rows == (if id.Some? && id.value in old(rows) then old(rows)[id.value := ApplyPatch(old(rows)[id.value], p)]
                    else old(rows))
    {
      var u := BuildUpdate(p);
      if |u.sets| == 0 {
        return None;
      }
      var wherePh := u.argCount;
      var args := u.args + [IdV(id)];
      assert wherePh == |u.sets| + 1 && args[wherePh - 1] == IdV(id);
      if !connected {
        return Some(DbError(UpdateLeadOp));
      }
      var target := args[wherePh - 1];
      if target.id.Some? && target.id.value in rows {
        var k := target.id.value;
        SetsIgnoreLaterArgs(rows[k], u.sets, u.args, [IdV(id)]);
        rows := rows[k := ApplySets(rows[k], u.sets, args)];
      }
      err := None;
    }

    method DeleteLead(id: int) returns (err: Option<StoreError>)
      requires Valid()
      modifies this
      ensures Valid()
      ensures !connected ==> err == Some(DbError(DeleteLeadOp)) && rows == old(rows)
      ensures connected ==> err.None? && rows == old(rows) - {id}
    {
      if !connected {
        return Some(DbError(DeleteLeadOp));
      }
      rows := rows - {id};
      err := None;
    }
  }
}
