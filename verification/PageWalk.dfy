/** A client following next_cursor through a collection that other clients change between
    pages. Each page comes from the query "the first limit + 1 ids after the cursor". */
module PageWalk {
  import opened Collections
  import opened Uuids
  import opened Pagination

  ghost predicate Ascending(ids: seq<Uuid>) {
    forall i, j :: 0 <= i < j < |ids| ==> Value(ids[i]) < Value(ids[j])
  }

  ghost predicate IsAfter(after: Option<Uuid>, id: Uuid) {
    after.Some? ==> Value(after.value) < Value(id)
  }

  /** The database's answer: the first n ids of the collection after the cursor, in order. */
  ghost predicate Answer(collection: set<Uuid>, after: Option<Uuid>, n: nat, rows: seq<Uuid>) {
    && |rows| <= n
    && Ascending(rows)
    && (forall x :: x in rows ==> x in collection && IsAfter(after, x))
    && (forall x :: x in collection && IsAfter(after, x) && x !in rows ==>
          |rows| == n && (n > 0 ==> Value(rows[n - 1]) < Value(x)))
  }

  /** One request: the collection as it stood, and the over-fetched rows. */
  datatype Visit = Visit(collection: set<Uuid>, rows: seq<Uuid>)

  function Same(id: Uuid): Uuid {
    id
  }

  function Page(v: Visit, limit: nat): seq<Uuid>
    requires limit >= 1
  {
    BuildPage(v.rows, limit, Same).0
  }

  function Info(v: Visit, limit: nat): PageInfo
    requires limit >= 1
  {
    BuildPage(v.rows, limit, Same).1
  }

  /** The id the next request starts after: none at first, then whatever the cursor of the
      page before decodes to. */
  function StartAfter(visits: seq<Visit>, limit: nat): Option<Uuid>
    requires limit >= 1
  {
    if visits == [] then None
    else match Info(visits[|visits| - 1], limit).nextCursor
      case None => None
      case Some(cursor) => CursorId(cursor)
  }

  /** Each page answers the request its predecessor's cursor makes, and none follows the last. */
  ghost predicate Walk(visits: seq<Visit>, limit: nat)
    requires limit >= 1
  {
    forall k :: 0 <= k < |visits| ==> Follows(visits[..k], visits[k], limit)
  }

  ghost predicate Follows(front: seq<Visit>, last: Visit, limit: nat)
    requires limit >= 1
  {
    && (front == [] || Info(front[|front| - 1], limit).hasMore)
    && Answer(last.collection, StartAfter(front, limit), limit + 1, last.rows)
  }

  ghost predicate Ended(visits: seq<Visit>, limit: nat)
    requires limit >= 1
  {
    visits != [] && !Info(visits[|visits| - 1], limit).hasMore
  }

  /** Everything the client has been given. */
  function Returned(visits: seq<Visit>, limit: nat): seq<Uuid>
    requires limit >= 1
  {
    if visits == [] then [] else Returned(visits[..|visits| - 1], limit) + Page(visits[|visits| - 1], limit)
  }

  /** A page is the over-fetched rows cut to the limit. */
  ghost predicate Cut(rows: seq<Uuid>, limit: nat, page: seq<Uuid>, more: bool) {
    && page <= rows
    && (more <==> |rows| > limit)
    && |page| == if more then limit else |rows|
  }

  lemma PageIsCut(v: Visit, limit: nat)
    requires limit >= 1
    ensures Cut(v.rows, limit, Page(v, limit), Info(v, limit).hasMore)
  {
  }

  /** The cursor of a page stands at its last id. */
  lemma CursorIsLast(v: Visit, limit: nat)
    requires limit >= 1 && Info(v, limit).hasMore
    ensures Cut(v.rows, limit, Page(v, limit), true)
    ensures Info(v, limit).nextCursor.Some?
    ensures CursorId(Info(v, limit).nextCursor.value) == Some(Page(v, limit)[limit - 1])
  {
    CursorRoundTrip(v.rows[limit - 1]);
  }

  /** The id was in the collection at every request. */
  ghost predicate Throughout(visits: seq<Visit>, x: Uuid) {
    forall k :: 0 <= k < |visits| ==> x in visits[k].collection
  }

  /** What a client holding got and about to ask for the ids after the cursor has achieved:
      ids in order up to the cursor, and nothing older left behind. When the walk is over
      (not open) nothing at all is left behind. */
  ghost predicate Covers(visits: seq<Visit>, got: seq<Uuid>, open: bool, after: Option<Uuid>) {
    && Ascending(got)
    && (open && after.None? ==> got == [])
    && (open && after.Some? ==> forall x :: x in got ==> Value(x) <= Value(after.value))
    && (forall x :: Throughout(visits, x) ==> x in got || (open && IsAfter(after, x)))
  }

  lemma VisitOrdered(got: seq<Uuid>, after: Option<Uuid>, page: seq<Uuid>)
    requires Ascending(got) && Ascending(page)
    requires after.None? ==> got == []
    requires after.Some? ==> forall x :: x in got ==> Value(x) <= Value(after.value)
    requires forall y :: y in page ==> IsAfter(after, y)
    ensures Ascending(got + page)
  {
    var all := got + page;
    forall i, j | 0 <= i < j < |all| ensures Value(all[i]) < Value(all[j]) {
      if i < |got| <= j {
        assert all[i] in got && all[j] in page;
      }
    }
  }

  lemma UpToLast(ids: seq<Uuid>)
    requires Ascending(ids) && ids != []
    ensures forall x :: x in ids ==> Value(x) <= Value(ids[|ids| - 1])
  {
    forall x | x in ids ensures Value(x) <= Value(ids[|ids| - 1]) {
      var i :| 0 <= i < |ids| && ids[i] == x;
    }
  }

  /** An id of the collection that was not behind the cursor is on the page or still ahead. */
  lemma PageOrAhead(v: Visit, after: Option<Uuid>, limit: nat, page: seq<Uuid>, more: bool, x: Uuid)
    requires limit >= 1 && Answer(v.collection, after, limit + 1, v.rows) && Cut(v.rows, limit, page, more)
    requires x in v.collection && IsAfter(after, x)
    ensures x in page || (more && Value(page[limit - 1]) < Value(x))
  {
    if x in v.rows && x !in page {
      var i :| 0 <= i < |v.rows| && v.rows[i] == x;
      assert i >= limit && page[limit - 1] == v.rows[limit - 1];
    }
  }

  lemma LeftBehind(front: seq<Visit>, got: seq<Uuid>, after: Option<Uuid>, last: Visit, x: Uuid)
    requires Covers(front, got, true, after)
    requires Throughout(front + [last], x)
    ensures x in last.collection && (x in got || IsAfter(after, x))
  {
    var visits := front + [last];
    assert visits[|front|] == last;
    assert forall k :: 0 <= k < |front| ==> visits[k] == front[k];
  }

  lemma VisitLeavesNothing(front: seq<Visit>, got: seq<Uuid>, after: Option<Uuid>, last: Visit, limit: nat,
      page: seq<Uuid>, more: bool, x: Uuid)
    requires limit >= 1 && Covers(front, got, true, after)
    requires Answer(last.collection, after, limit + 1, last.rows) && Cut(last.rows, limit, page, more)
    requires Throughout(front + [last], x)
    ensures x in got + page || (more && IsAfter(Some(page[limit - 1]), x))
  {
    LeftBehind(front, got, after, last, x);
    if x !in got {
      PageOrAhead(last, after, limit, page, more, x);
    }
  }

  lemma VisitExtends(front: seq<Visit>, got: seq<Uuid>, after: Option<Uuid>, last: Visit, limit: nat,
      page: seq<Uuid>, more: bool)
    requires limit >= 1 && Covers(front, got, true, after)
    requires Answer(last.collection, after, limit + 1, last.rows) && Cut(last.rows, limit, page, more)
    ensures Ascending(got + page)
    ensures more ==> forall x :: x in got + page ==> Value(x) <= Value(page[limit - 1])
  {
    assert page == last.rows[..|page|];
    forall y | y in page ensures IsAfter(after, y) {
      assert y in last.rows;
    }
    VisitOrdered(got, after, page);
    if more {
      UpToLast(got + page);
    }
  }

  lemma VisitCovers(front: seq<Visit>, got: seq<Uuid>, after: Option<Uuid>, last: Visit, limit: nat, page: seq<Uuid>,
      more: bool)
    requires limit >= 1 && Covers(front, got, true, after)
    requires Answer(last.collection, after, limit + 1, last.rows) && Cut(last.rows, limit, page, more)
    ensures Covers(front + [last], got + page, more, if more then Some(page[limit - 1]) else None)
  {
    VisitExtends(front, got, after, last, limit, page, more);
    forall x | Throughout(front + [last], x)
      ensures x in got + page || (more && IsAfter(Some(page[limit - 1]), x))
    {
      VisitLeavesNothing(front, got, after, last, limit, page, more, x);
    }
  }

  lemma StartAfterLast(visits: seq<Visit>, limit: nat)
    requires limit >= 1 && visits != []
    ensures var last := visits[|visits| - 1];
            var page, more := Page(last, limit), Info(last, limit).hasMore;
            && Cut(last.rows, limit, page, more)
            && StartAfter(visits, limit) == if more then Some(page[limit - 1]) else None
  {
    var last := visits[|visits| - 1];
    PageIsCut(last, limit);
    if Info(last, limit).hasMore {
      CursorIsLast(last, limit);
    }
  }

  lemma WalkExtends(front: seq<Visit>, last: Visit, limit: nat)
    requires limit >= 1 && Follows(front, last, limit)
    requires Covers(front, Returned(front, limit), true, StartAfter(front, limit))
    ensures var visits := front + [last];
            Covers(visits, Returned(visits, limit), !Ended(visits, limit), StartAfter(visits, limit))
  {
    var visits := front + [last];
    Snoc(front, last);
    StartAfterLast(visits, limit);
    VisitCovers(front, Returned(front, limit), StartAfter(front, limit), last, limit,
                Page(last, limit), Info(last, limit).hasMore);
    assert Returned(visits, limit) == Returned(front, limit) + Page(last, limit);
  }

  lemma WalkFront(visits: seq<Visit>, limit: nat)
    requires limit >= 1 && Walk(visits, limit) && visits != []
    ensures var n := |visits| - 1;
            && Walk(visits[..n], limit) && !Ended(visits[..n], limit)
            && Follows(visits[..n], visits[n], limit) && visits == visits[..n] + [visits[n]]
  {
    var front := visits[..|visits| - 1];
    FrontLast(visits);
    forall k | 0 <= k < |front| ensures Follows(front[..k], front[k], limit) {
      assert front[..k] == visits[..k];
    }
  }

  lemma {:induction false} WalkCovers(visits: seq<Visit>, limit: nat)
    requires limit >= 1 && Walk(visits, limit)
    ensures Covers(visits, Returned(visits, limit), !Ended(visits, limit), StartAfter(visits, limit))
  {
    if visits != [] {
      var front := visits[..|visits| - 1];
      WalkFront(visits, limit);
      WalkCovers(front, limit);
      WalkExtends(front, visits[|visits| - 1], limit);
    }
  }

  /** Whatever is inserted and deleted between pages, a walk returns strictly increasing ids,
      hence no repeats; and once it ends it has returned every id that was there throughout. */
  lemma WalkIsCompleteAndOrdered(visits: seq<Visit>, limit: nat)
    requires limit >= 1 && Walk(visits, limit)
    ensures Ascending(Returned(visits, limit))
    ensures Distinct(Returned(visits, limit))
    ensures Ended(visits, limit) ==> forall x :: Throughout(visits, x) ==> x in Returned(visits, limit)
  {
    WalkCovers(visits, limit);
  }

  lemma WalkGoesOn(visits: seq<Visit>, limit: nat, k: nat)
    requires limit >= 1 && Walk(visits, limit) && k + 1 < |visits|
    ensures Info(visits[k], limit).hasMore
  {
    assert Follows(visits[..k + 1], visits[k + 1], limit);
  }

  lemma ReturnedSnoc(visits: seq<Visit>, limit: nat)
    requires limit >= 1 && visits != []
    ensures var n := |visits| - 1;
            Returned(visits, limit) == Returned(visits[..n], limit) + Page(visits[n], limit)
  {
  }

  lemma TimesSucc(n: nat, limit: nat)
    ensures (n + 1) * limit == n * limit + limit
  {
  }

  lemma {:induction false} FullPages(visits: seq<Visit>, limit: nat)
    requires limit >= 1
    requires forall v :: v in visits ==> |Page(v, limit)| == limit
    ensures |Returned(visits, limit)| == |visits| * limit
    decreases |visits|
  {
    if visits != [] {
      var n := |visits| - 1;
      assert visits[n] in visits;
      FullPages(visits[..n], limit);
      ReturnedSnoc(visits, limit);
      TimesSucc(n, limit);
    }
  }

  /** What has been returned came on one of the pages. */
  lemma {:induction false} ReturnedFrom(visits: seq<Visit>, limit: nat, x: Uuid) returns (k: nat)
    requires limit >= 1 && x in Returned(visits, limit)
    ensures k < |visits| && x in Page(visits[k], limit)
  {
    var n := |visits| - 1;
    if x in Returned(visits[..n], limit) {
      k := ReturnedFrom(visits[..n], limit, x);
    } else {
      k := n;
    }
  }

  lemma {:induction false} DistinctWithin(ids: seq<Uuid>, all: set<Uuid>)
    requires Distinct(ids) && forall x :: x in ids ==> x in all
    ensures |ids| <= |all|
    ensures (forall x :: x in all ==> x in ids) ==> |ids| == |all|
  {
    if ids == [] {
      if forall x :: x in all ==> x in ids {
        assert all == {};
      }
    } else {
      var front, last := ids[..|ids| - 1], ids[|ids| - 1];
      assert ids == front + [last];
      DistinctWithin(front, all - {last});
    }
  }

  lemma FixedContents(visits: seq<Visit>, limit: nat, all: set<Uuid>)
    requires limit >= 1 && Walk(visits, limit)
    requires forall k :: 0 <= k < |visits| ==> visits[k].collection == all
    ensures forall x :: x in Returned(visits, limit) ==> x in all
    ensures Ended(visits, limit) ==> forall x :: x in all ==> x in Returned(visits, limit)
    ensures |Returned(visits, limit)| <= |all|
    ensures Ended(visits, limit) ==> |Returned(visits, limit)| == |all|
  {
    WalkIsCompleteAndOrdered(visits, limit);
    var got := Returned(visits, limit);
    forall x | x in got ensures x in all {
      var k := ReturnedFrom(visits, limit, x);
      PageIsCut(visits[k], limit);
      assert Follows(visits[..k], visits[k], limit) && x in visits[k].rows;
    }
    if Ended(visits, limit) {
      forall x | x in all ensures x in got {
        assert Throughout(visits, x);
      }
    }
    DistinctWithin(got, all);
  }

  lemma FixedCount(visits: seq<Visit>, limit: nat)
    requires limit >= 1 && Walk(visits, limit) && visits != []
    ensures var n := |visits| - 1;
            |Returned(visits, limit)| == n * limit + |Page(visits[n], limit)|
  {
    var n := |visits| - 1;
    var front := visits[..n];
    forall v | v in front ensures |Page(v, limit)| == limit {
      var k :| 0 <= k < |front| && front[k] == v;
      WalkGoesOn(visits, limit, k);
      PageIsCut(v, limit);
    }
    FullPages(front, limit);
    ReturnedSnoc(visits, limit);
  }

  /** Over a fixed collection the pages concatenate to exactly the collection in order, and the
      number of pages is the least that can hold it: every page but the last is full, and a
      last page after another is not empty. In particular no walk goes on for ever. */
  lemma FixedCollection(visits: seq<Visit>, limit: nat, all: set<Uuid>)
    requires limit >= 1 && Walk(visits, limit) && visits != []
    requires forall k :: 0 <= k < |visits| ==> visits[k].collection == all
    ensures (|visits| - 1) * limit <= |all|
    ensures Ended(visits, limit) ==>
              && (forall x :: x in Returned(visits, limit) <==> x in all)
              && Ascending(Returned(visits, limit))
              && var tail := |Page(visits[|visits| - 1], limit)|;
                 (|visits| - 1) * limit + tail == |all| && tail <= limit && (|visits| > 1 ==> tail >= 1)
  {
    var n := |visits| - 1;
    WalkIsCompleteAndOrdered(visits, limit);
    FixedContents(visits, limit, all);
    FixedCount(visits, limit);
    PageIsCut(visits[n], limit);
    if n > 0 {
      WalkFront(visits, limit);
      LastPageNotEmpty(visits[..n], visits[n], limit, all);
    }
  }

  /** The row fetched beyond a full page is still there for the next one. */
  lemma LastPageNotEmpty(front: seq<Visit>, last: Visit, limit: nat, all: set<Uuid>)
    requires limit >= 1 && front != [] && Info(front[|front| - 1], limit).hasMore
    requires Follows(front[..|front| - 1], front[|front| - 1], limit)
    requires front[|front| - 1].collection == all && last.collection == all
    requires Answer(all, StartAfter(front, limit), limit + 1, last.rows)
    ensures |Page(last, limit)| >= 1
  {
    var v := front[|front| - 1];
    CursorIsLast(v, limit);
    var x := v.rows[limit];
    assert x in v.rows && x in all;
    assert IsAfter(StartAfter(front, limit), x);
  }
}
