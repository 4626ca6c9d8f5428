/** Exactly when the Python relay keeps the order of the order column on the broker. */
module RelayOrder {
  import opened Collections
  import opened Machine
  import opened RelayWorkers

  /** Runs in which passes may overlap only if overlap is given, and rows may be inserted behind
      older ones only if late is given. */
  ghost function Under(overlap: bool, late: bool): (State, Step) -> Option<State> {
    (s: State, a: Step) => if Permitted(s, a, overlap, late) then Next(s, a) else None
  }

  ghost predicate Permitted(s: State, a: Step, overlap: bool, late: bool) {
    && (a.Begin? ==> overlap || s.workers == map[])
    && (a.Insert? ==> late || forall r: nat :: r < |s.rows| ==> At(s, r) <= a.row.occurredAt)
  }

  ghost predicate Sorted(s: State, ids: seq<nat>) {
    forall i, j :: 0 <= i < j < |ids| ==> At(s, ids[i]) <= At(s, ids[j])
  }

  /** First occurrences on the broker follow the order column. */
  ghost predicate InTableOrder(s: State) {
    Sorted(s, FirstOccurrences(s.sends))
  }

  /** Nothing older than q is still waiting outside the given rows. */
  ghost predicate NoneOlder(s: State, q: nat, but: set<nat>) {
    forall r: nat :: r < |s.rows| && r !in but ==> At(s, q) <= At(s, r)
  }

  /** A live pass holds the oldest unpublished rows, in order, and has sent the first of them. */
  ghost predicate PassInOrder(s: State, p: Pass) {
    && p.sent <= |p.rows| && Sorted(s, p.rows)
    && (forall i :: 0 <= i < p.sent ==> p.rows[i] in s.sends)
    && (forall q :: q in p.rows ==> q < |s.rows| && NoneOlder(s, q, s.published + Members(p.rows)))
  }

  ghost predicate OrderInv(s: State) {
    && (forall v, w :: v in s.workers && w in s.workers ==> v == w)
    && (forall r :: r in s.published ==> r in s.sends)
    && (forall q :: q in s.sends ==> q < |s.rows| && NoneOlder(s, q, Members(s.sends)))
    && (forall w :: w in s.workers ==> PassInOrder(s, s.workers[w]))
    && InTableOrder(s)
  }

  lemma SortedSnoc(s: State, ids: seq<nat>, x: nat)
    requires Sorted(s, ids) && forall q :: q in ids ==> At(s, q) <= At(s, x)
    ensures Sorted(s, ids + [x])
  {
    forall i, j | 0 <= i < j < |ids + [x]| ensures At(s, (ids + [x])[i]) <= At(s, (ids + [x])[j]) {
      if j == |ids| {
        assert ids[i] in ids;
      }
    }
  }

  /** The next row of a pass is no older than what was sent and no younger than what was not. */
  lemma NextIsOldest(s: State, p: Pass)
    requires OrderInv(s) && PassInOrder(s, p) && p.sent < |p.rows| && p.rows[p.sent] !in s.sends
    ensures forall q :: q in s.sends ==> At(s, q) <= At(s, p.rows[p.sent])
    ensures NoneOlder(s, p.rows[p.sent], Members(s.sends))
  {
    var x := p.rows[p.sent];
    assert x in p.rows;
    forall q | q in s.sends ensures At(s, q) <= At(s, x) {
      assert NoneOlder(s, q, Members(s.sends));
    }
    assert NoneOlder(s, x, s.published + Members(p.rows));
    forall r: nat | r < |s.rows| && r !in s.sends ensures At(s, x) <= At(s, r) {
      if r in p.rows {
        var i :| 0 <= i < |p.rows| && p.rows[i] == r;
        assert i >= p.sent;
      }
    }
  }

  lemma SameOrder(s: State, t: State, ids: seq<nat>)
    requires t.rows == s.rows
    ensures Sorted(s, ids) <==> Sorted(t, ids)
    ensures forall q: nat, but :: NoneOlder(s, q, but) <==> NoneOlder(t, q, but)
  {
    assert forall r: nat :: At(t, r) == At(s, r);
  }

  lemma SentStaysOldest(s: State, x: nat, q: nat)
    requires NoneOlder(s, q, Members(s.sends))
    ensures NoneOlder(s, q, Members(s.sends + [x]))
  {
  }

  lemma FirstsStaySorted(s: State, p: Pass)
    requires OrderInv(s) && PassInOrder(s, p) && p.sent < |p.rows|
    ensures Sorted(s, FirstOccurrences(s.sends + [p.rows[p.sent]]))
  {
    FirstOccurrencesSnoc(s.sends, p.rows[p.sent]);
    if p.rows[p.sent] !in s.sends {
      NextIsOldest(s, p);
      SortedSnoc(s, FirstOccurrences(s.sends), p.rows[p.sent]);
    }
  }

  lemma SentStayOldest(s: State, p: Pass)
    requires OrderInv(s) && PassInOrder(s, p) && p.sent < |p.rows|
    ensures var sends := s.sends + [p.rows[p.sent]];
            forall q :: q in sends ==> q < |s.rows| && NoneOlder(s, q, Members(sends))
  {
    var x := p.rows[p.sent];
    assert x in p.rows;
    if x !in s.sends {
      NextIsOldest(s, p);
    }
    forall q | q in s.sends + [x] ensures q < |s.rows| && NoneOlder(s, q, Members(s.sends + [x])) {
      SentStaysOldest(s, x, q);
    }
  }

  lemma PassMovesOn(s: State, t: State, p: Pass)
    requires PassInOrder(s, p) && p.sent < |p.rows|
    requires t.rows == s.rows && t.published == s.published && t.sends == s.sends + [p.rows[p.sent]]
    ensures PassInOrder(t, p.(sent := p.sent + 1))
  {
    SameOrder(s, t, p.rows);
    forall i | 0 <= i < p.sent + 1 ensures p.rows[i] in t.sends {
      assert i < p.sent ==> p.rows[i] in s.sends;
    }
  }

  lemma SendKeepsOrder(s: State, w: nat)
    requires OrderInv(s) && MaySend(s, w)
    ensures OrderInv(SendNext(s, w))
  {
    var p, t := s.workers[w], SendNext(s, w);
    FirstsStaySorted(s, p);
    SentStayOldest(s, p);
    PassMovesOn(s, t, p);
    SameOrder(s, t, FirstOccurrences(t.sends));
    assert t.workers == map[w := p.(sent := p.sent + 1)];
  }

  /** Whatever ends a pass keeps the order; only a commit publishes rows, and those were sent. */
  lemma EndKeepsOrder(s: State, t: State, w: nat)
    requires OrderInv(s) && w in s.workers
    requires t.rows == s.rows && t.sends == s.sends && t.workers == s.workers - {w}
    requires t.published == s.published
             || (s.workers[w].sent == |s.workers[w].rows| && t.published == s.published + Members(s.workers[w].rows))
    ensures OrderInv(t)
  {
    SameOrder(s, t, FirstOccurrences(t.sends));
    assert t.workers.Keys == {};
  }

  lemma InsertKeepsOrder(s: State, row: Row)
    requires OrderInv(s) && Permitted(s, Insert(row), false, false)
    ensures OrderInv(s.(rows := s.rows + [row]))
  {
    var t := s.(rows := s.rows + [row]);
    assert forall r: nat :: r < |s.rows| ==> At(t, r) == At(s, r);
    forall q: nat, but | q < |s.rows| && NoneOlder(s, q, but) ensures NoneOlder(t, q, but) {
    }
    assert forall w :: w in s.workers ==>
      forall i :: 0 <= i < |s.workers[w].rows| ==> s.workers[w].rows[i] in s.workers[w].rows;
    var f := FirstOccurrences(s.sends);
    assert forall i :: 0 <= i < |f| ==> f[i] in s.sends;
    assert Sorted(t, f);
  }

  lemma BeginKeepsOrder(s: State, w: nat, rows: seq<nat>, limit: nat)
    requires OrderInv(s) && s.workers == map[] && Selection(s, rows, limit)
    ensures OrderInv(s.(workers := s.workers[w := Pass(rows, 0)]))
  {
    var t := s.(workers := s.workers[w := Pass(rows, 0)]);
    SameOrder(s, t, rows);
    SameOrder(s, t, FirstOccurrences(t.sends));
    assert forall r: nat :: !Held(s, r);
    forall q | q in rows ensures q < |s.rows| && NoneOlder(s, q, s.published + Members(rows)) {
      assert Eligible(s, q);
    }
  }

  lemma StepKeepsOrder(s: State, a: Step)
    requires OrderInv(s) && Under(false, false)(s, a).Some?
    ensures OrderInv(Next(s, a).value)
  {
    match a
    case Insert(row) => InsertKeepsOrder(s, row);
    case Begin(w, rows, limit) => BeginKeepsOrder(s, w, rows, limit);
    case Send(w) => SendKeepsOrder(s, w);
    case SendFail(w, landed) =>
      if landed {
        SendKeepsOrder(s, w);
        EndKeepsOrder(SendNext(s, w), Next(s, a).value, w);
      } else {
        EndKeepsOrder(s, Next(s, a).value, w);
      }
    case NoTopic(w) => EndKeepsOrder(s, Next(s, a).value, w);
    case Commit(w, _) => EndKeepsOrder(s, Next(s, a).value, w);
    case Crash(w) => EndKeepsOrder(s, Next(s, a).value, w);
  }

  /** One pass at a time over rows inserted in order: every run puts first occurrences on the
      broker in the order of the order column, whatever fails, crashes or is sent again. */
  lemma SequentialKeepsOrder(trace: seq<Step>, s: State)
    requires Run(Under(false, false), INIT, trace) == Some(s)
    ensures InTableOrder(s)
  {
    var next := Under(false, false);
    assert OrderInv(INIT);
    forall t, a | OrderInv(t) && next(t, a).Some? ensures OrderInv(next(t, a).value) {
      StepKeepsOrder(t, a);
    }
    RunInvariant(next, OrderInv, INIT, trace);
  }

  lemma Inserted(overlap: bool, late: bool, past: seq<Step>, s: State, row: Row)
      returns (trace: seq<Step>, t: State)
    requires Run(Under(overlap, late), INIT, past) == Some(s) && Permitted(s, Insert(row), overlap, late)
    ensures Run(Under(overlap, late), INIT, trace) == Some(t) && t == s.(rows := s.rows + [row])
  {
    RunSnoc(Under(overlap, late), INIT, past, Insert(row));
    trace, t := past + [Insert(row)], s.(rows := s.rows + [row]);
  }

  lemma Began(overlap: bool, late: bool, past: seq<Step>, s: State, w: nat, r: nat)
      returns (trace: seq<Step>, t: State)
    requires Run(Under(overlap, late), INIT, past) == Some(s) && (overlap || s.workers == map[])
    requires w !in s.workers && Selection(s, [r], 1)
    ensures Run(Under(overlap, late), INIT, trace) == Some(t) && t == s.(workers := s.workers[w := Pass([r], 0)])
  {
    RunSnoc(Under(overlap, late), INIT, past, Begin(w, [r], 1));
    trace, t := past + [Begin(w, [r], 1)], s.(workers := s.workers[w := Pass([r], 0)]);
  }

  lemma Sent(overlap: bool, late: bool, past: seq<Step>, s: State, w: nat, r: nat)
      returns (trace: seq<Step>, t: State)
    requires Run(Under(overlap, late), INIT, past) == Some(s)
    requires w in s.workers && s.workers[w] == Pass([r], 0) && HasTopic(s, r)
    ensures Run(Under(overlap, late), INIT, trace) == Some(t)
    ensures t == s.(sends := s.sends + [r], workers := s.workers[w := Pass([r], 1)])
  {
    RunSnoc(Under(overlap, late), INIT, past, Send(w));
    trace, t := past + [Send(w)], s.(sends := s.sends + [r], workers := s.workers[w := Pass([r], 1)]);
  }

  lemma Committed(overlap: bool, late: bool, past: seq<Step>, s: State, w: nat, r: nat)
      returns (trace: seq<Step>, t: State)
    requires Run(Under(overlap, late), INIT, past) == Some(s)
    requires w in s.workers && s.workers[w] == Pass([r], 1)
    ensures Run(Under(overlap, late), INIT, trace) == Some(t)
    ensures t.rows == s.rows && t.sends == s.sends && t.published == s.published + {r} && t.workers == s.workers - {w}
  {
    RunSnoc(Under(overlap, late), INIT, past, Commit(w, true));
    trace, t := past + [Commit(w, true)], Next(s, Commit(w, true)).value;
    assert Members([r]) == {r};
  }

  /** Two rows with the given times, in the order of their insertion. */
  function Table(first: int, second: int): seq<Row> {
    [Row("", first, true), Row("", second, true)]
  }

  lemma SwappedBreaksOrder(s: State, x: nat, y: nat)
    requires s.sends == [x, y] && At(s, x) > At(s, y)
    ensures !InTableOrder(s)
  {
    assert [] + [x] == [x] && [x] + [y] == [x, y];
    FirstOccurrencesSnoc([], x);
    FirstOccurrencesSnoc([x], y);
    assert FirstOccurrences(s.sends) == [x, y];
  }

  lemma FirstOfTwo(s: State)
    requires s.rows == Table(1, 2) && s.published == {} && s.workers == map[]
    ensures Selection(s, [0], 1)
    ensures Selection(s.(workers := map[0 := Pass([0], 0)]), [1], 1)
  {
    var t := s.(workers := map[0 := Pass([0], 0)]);
    assert 0 in t.workers[0].rows;
    assert Held(t, 0) && !Held(t, 1) && !Held(s, 0) && !Held(s, 1);
  }

  /** Two overlapping passes over two rows inserted in order. */
  lemma OverlapBreaksOrder(late: bool) returns (trace: seq<Step>, s: State)
    ensures Run(Under(true, late), INIT, trace) == Some(s) && !InTableOrder(s)
  {
    trace, s := Inserted(true, late, [], INIT, Row("", 1, true));
    trace, s := Inserted(true, late, trace, s, Row("", 2, true));
    assert s.rows == Table(1, 2);
    FirstOfTwo(s);
    trace, s := Began(true, late, trace, s, 0, 0);
    assert s.workers == map[0 := Pass([0], 0)];
    trace, s := Began(true, late, trace, s, 1, 1);
    trace, s := Sent(true, late, trace, s, 1, 1);
    trace, s := Sent(true, late, trace, s, 0, 0);
    assert s.sends == [1, 0];
    SwappedBreaksOrder(s, 1, 0);
  }

  lemma OnlyOne(s: State, r: nat)
    requires s.workers == map[] && Eligible(s, r) && forall q: nat :: Eligible(s, q) ==> q == r
    ensures Selection(s, [r], 1)
  {
    assert r in [r];
  }

  /** One pass after the other, with a row inserted behind one already sent. */
  lemma LateBreaksOrder(overlap: bool) returns (trace: seq<Step>, s: State)
    ensures Run(Under(overlap, true), INIT, trace) == Some(s) && !InTableOrder(s)
  {
    trace, s := Inserted(overlap, true, [], INIT, Row("", 2, true));
    OnlyOne(s, 0);
    trace, s := Began(overlap, true, trace, s, 0, 0);
    trace, s := Sent(overlap, true, trace, s, 0, 0);
    trace, s := Committed(overlap, true, trace, s, 0, 0);
    trace, s := Inserted(overlap, true, trace, s, Row("", 1, true));
    assert s.rows == Table(2, 1) && s.workers == map[];
    OnlyOne(s, 1);
    trace, s := Began(overlap, true, trace, s, 0, 1);
    trace, s := Sent(overlap, true, trace, s, 0, 1);
    assert s.sends == [0, 1];
    SwappedBreaksOrder(s, 0, 1);
  }

  ghost predicate AlwaysInOrder(overlap: bool, late: bool) {
    forall trace, s :: Run(Under(overlap, late), INIT, trace) == Some(s) ==> InTableOrder(s)
  }

  /** The order column is kept on the broker in every run if and only if passes do not overlap
      and rows are not inserted behind older ones. */
  lemma OrderKeptExactly(overlap: bool, late: bool)
    ensures AlwaysInOrder(overlap, late) <==> !overlap && !late
  {
    if overlap {
      var trace, s := OverlapBreaksOrder(late);
    } else if late {
      var trace, s := LateBreaksOrder(overlap);
    } else {
      forall trace, s | Run(Under(overlap, late), INIT, trace) == Some(s) ensures InTableOrder(s) {
        SequentialKeepsOrder(trace, s);
      }
    }
  }
}
