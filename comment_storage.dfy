/**
 * The `comments` table: a map from comment id to row, plus the next value of the id
 * sequence that an insert without an id draws from.
 */
module CommentStorage {
  import opened Wrappers
  import opened Models
  import opened Storage
  import Sets

  const CommentsOp := "CommentRepository.Comments"
  const SaveCommentOp := "CommentRepository.SaveComment"

  /** `ORDER BY created_at`; comments created at the same instant may come in either order. */
  predicate SortedOldestFirst(s: seq<Comment>)
  {
    forall i, j :: 0 <= i < j < |s| ==> s[i].createdAt <= s[j].createdAt
  }

  /** Inserts a comment before the first one that is newer than it. */
  function InsertOldest(s: seq<Comment>, x: Comment): (r: seq<Comment>)
    ensures multiset(r) == multiset(s) + multiset{x}
    decreases |s|
  {
    if s == [] then [x]
    else if x.createdAt < s[0].createdAt then [x] + s
    else
      assert s == [s[0]] + s[1..];
      [s[0]] + InsertOldest(s[1..], x)
  }

  lemma InsertMembers(s: seq<Comment>, x: Comment)
    ensures forall y :: y in InsertOldest(s, x) <==> y in s || y == x
  {
    var r := InsertOldest(s, x);
    forall y ensures y in r <==> y in s || y == x {
      assert y in r <==> y in multiset(r);
      assert y in s <==> y in multiset(s);
    }
  }

  lemma {:induction false} InsertKeepsOrder(s: seq<Comment>, x: Comment)
    requires SortedOldestFirst(s)
    ensures SortedOldestFirst(InsertOldest(s, x))
    decreases |s|
  {
    if s != [] && x.createdAt >= s[0].createdAt {
      InsertKeepsOrder(s[1..], x);
      InsertMembers(s[1..], x);
      var rest := InsertOldest(s[1..], x);
      forall j | 0 <= j < |rest| ensures s[0].createdAt <= rest[j].createdAt {
        assert rest[j] in rest;
      }
    }
  }

  lemma {:induction false} InsertKeepsDistinct(s: seq<Comment>, x: Comment)
    requires Sets.NoDuplicates(s) && x !in s
    ensures Sets.NoDuplicates(InsertOldest(s, x))
    decreases |s|
  {
    if s != [] && x.createdAt >= s[0].createdAt {
      assert s == [s[0]] + s[1..];
      InsertKeepsDistinct(s[1..], x);
      InsertMembers(s[1..], x);
      var rest := InsertOldest(s[1..], x);
      forall j | 0 <= j < |rest| ensures s[0] != rest[j] {
        assert rest[j] in rest;
      }
    }
  }

  /** The comments of lead `leadId` in `rows`, each once, oldest first. */
  ghost predicate IsListing(rows: map<int, Comment>, leadId: int, s: seq<Comment>)
  {
    && SortedOldestFirst(s)
    && (forall i, j :: 0 <= i < j < |s| ==> s[i].id != s[j].id)
    && (forall c :: c in s <==> c.id in rows && rows[c.id] == c && c.leadId == leadId)
  }

  /** Two duplicate-free sequences with the same members hold the same multiset. */
  lemma SameMembers(a: seq<Comment>, b: seq<Comment>)
    requires Sets.NoDuplicates(a) && Sets.NoDuplicates(b)
    requires forall x :: x in a <==> x in b
    ensures multiset(a) == multiset(b)
  {
    forall x ensures multiset(a)[x] == multiset(b)[x] {
      Sets.DistinctCount(a, x);
      Sets.DistinctCount(b, x);
    }
  }

  /**
   * Saving a new comment of lead `leadId` adds exactly that comment to the lead's listing,
   * and leaves the listing of every other lead as it was (up to the order of ties).
   */
  lemma SaveExtendsListing(rows: map<int, Comment>, c: Comment, leadId: int, before: seq<Comment>, after: seq<Comment>)
    requires c.id !in rows
    requires IsListing(rows, leadId, before) && IsListing(rows[c.id := c], leadId, after)
    ensures c.leadId == leadId ==> multiset(after) == multiset(before) + multiset{c}
    ensures c.leadId != leadId ==> multiset(after) == multiset(before)
  {
    if c.leadId == leadId {
      assert c !in before;
      var grown := before + [c];
      forall i, j | 0 <= i < j < |grown| ensures grown[i] != grown[j] {
        if j == |before| {
          assert grown[i] in before;
        } else {
          assert grown[i] == before[i] && grown[j] == before[j];
        }
      }
      SameMembers(after, grown);
    } else {
      SameMembers(after, before);
    }
  }

  /** The id an insert of `c` takes: its own, or the next sequence value when it is 0. */
  function TargetId(c: Comment, nextId: int): int
  {
    if c.id != 0 then c.id else nextId
  }

  /** The row an insert of `c` at time `now` leaves in the table. */
  function Stored(c: Comment, nextId: int, now: nat): Comment
  {
    c.(id := TargetId(c, nextId), createdAt := now)
  }

  /**
   * The comment repository. `nextId` is the next value of the id sequence; `connected`
   * false stands for a database that fails every statement it is sent.
   */
  class CommentRepository {
    var rows: map<int, Comment>
    var nextId: int
    const connected: bool

    /** Every row is stored under its own id; sequence values start at 1. */
    ghost predicate Valid()
      reads this
    {
      && (forall k :: k in rows ==> rows[k].id == k)
      && nextId >= 1
    }

    constructor (initial: map<int, Comment>, nextId: int, connected: bool)
      requires forall k :: k in initial ==> initial[k].id == k
      requires nextId >= 1
      ensures Valid() && rows == initial && this.nextId == nextId && this.connected == connected
    {
      rows := initial;
      this.nextId := nextId;
      this.connected := connected;
    }

    /**
     * A comment with an id is inserted under that id (an id already present violates the
     * primary key) and read back with the creation time the table assigned. A comment
     * with id 0 draws the next sequence value, which is used up even when the insert
     * then fails on a row inserted earlier under that id.
     */
    method SaveComment(c: Comment, now: nat) returns (r: Result<Comment, StoreError>)
      requires Valid()
      modifies this
      ensures Valid()
      ensures nextId == if connected && c.id == 0 then old(nextId) + 1 else old(nextId)
      ensures connected && TargetId(c, old(nextId)) !in old(rows) ==>
        && r == Success(Stored(c, old(nextId), now))
        && rows == old(rows)[TargetId(c, old(nextId)) := Stored(c, old(nextId), now)]
      ensures !connected || TargetId(c, old(nextId)) in old(rows) ==>
        r == Failure(DbError(SaveCommentOp)) && rows == old(rows)
    {
      if !connected {
        return Failure(DbError(SaveCommentOp));
      }
      if c.id != 0 {
        if c.id in rows {
          return Failure(DbError(SaveCommentOp));
        }
        rows := rows[c.id := c.(createdAt := now)];
        var createdAt := rows[c.id].createdAt;
        return Success(c.(createdAt := createdAt));
      }
      var id := nextId;
      nextId := nextId + 1;
      if id in rows {
        return Failure(DbError(SaveCommentOp));
      }
      var saved := c.(id := id, createdAt := now);
      rows := rows[id := saved];
      r := Success(saved);
    }

    /** The comments of one lead, oldest first; none at all is `ErrCommentsNotFound`. */
    method Comments(leadId: int) returns (r: Result<seq<Comment>, StoreError>)
      requires Valid()
      ensures !connected ==> r == Failure(DbError(CommentsOp))
      ensures connected ==>
        (r == Failure(ErrCommentsNotFound) <==> forall k :: k in rows ==> rows[k].leadId != leadId)
      ensures connected && r.Failure? ==> r.error == ErrCommentsNotFound
      ensures r.Success? ==> IsListing(rows, leadId, r.value) && r.value != []
    {
      if !connected {
        return Failure(DbError(CommentsOp));
      }
      var pending := rows.Keys;
      var acc: seq<Comment> := [];
      while pending != {}
        invariant pending <= rows.Keys
        invariant SortedOldestFirst(acc) && Sets.NoDuplicates(acc)
        invariant forall c :: c in acc ==> c.id in rows && rows[c.id] == c && c.id !in pending && c.leadId == leadId
        invariant forall k :: k in rows && k !in pending && rows[k].leadId == leadId ==> rows[k] in acc
        decreases pending
      {
        Sets.HasMember(pending);
        var k :| k in pending;
        pending := pending - {k};
        if rows[k].leadId == leadId {
          InsertMembers(acc, rows[k]);
          InsertKeepsOrder(acc, rows[k]);
          InsertKeepsDistinct(acc, rows[k]);
          acc := InsertOldest(acc, rows[k]);
        }
      }
      if acc == [] {
        return Failure(ErrCommentsNotFound);
      }
      assert acc[0] in acc;
      r := Success(acc);
    }
  }
}
