/** Any number of Python relay workers over one outbox table, each pass one transaction that
    locks its rows FOR UPDATE SKIP LOCKED, sends them, marks them and commits. */
module RelayWorkers {
  import opened Collections
  import opened Machine

  datatype Row = Row(tenant: string, occurredAt: int, hasTopic: bool)

  /** A live pass: the rows it locked, and how many of them it has sent. */
  datatype Pass = Pass(rows: seq<nat>, sent: nat)

  datatype State = State(
    rows: seq<Row>,
    published: set<nat>,        // rows whose published column is set
    sends: seq<nat>,            // row of every record on the broker, in order
    marks: multiset<nat>,       // every time a commit set a row's published column
    aborted: multiset<nat>,     // every send made by a pass that then rolled back
    workers: map<nat, Pass>)

  datatype Step =
    | Insert(row: Row)
    | Begin(w: nat, selected: seq<nat>, limit: nat)
    | Send(w: nat)
    | SendFail(w: nat, landed: bool)
    | NoTopic(w: nat)
    | Commit(w: nat, landed: bool)
    | Crash(w: nat)

  const INIT := State([], {}, [], multiset{}, multiset{}, map[])

  predicate Held(s: State, r: nat) {
    exists w :: w in s.workers && r in s.workers[w].rows
  }

  predicate Eligible(s: State, r: nat) {
    r < |s.rows| && r !in s.published && !Held(s, r)
  }

  /** The order column of a row. */
  function At(s: State, r: nat): int {
    if r < |s.rows| then s.rows[r].occurredAt else 0
  }

  predicate HasTopic(s: State, r: nat) {
    r < |s.rows| && s.rows[r].hasTopic
  }

  /** What the locking SELECT may return: the oldest unpublished rows nobody has locked, in the
      order of the order column, at most the limit; ties fall in any order. */
  predicate Selection(s: State, rows: seq<nat>, limit: nat) {
    && |rows| <= limit
    && (forall r :: r in rows ==> Eligible(s, r))
    && (forall i, j :: 0 <= i < j < |rows| ==> rows[i] != rows[j] && At(s, rows[i]) <= At(s, rows[j]))
    && (forall r: nat :: r < |s.rows| && Eligible(s, r) && r !in rows ==>
          |rows| == limit && forall q :: q in rows ==> At(s, q) <= At(s, r))
  }

  function Members(rows: seq<nat>): set<nat> {
    set r | r in rows
  }

  /** The transaction rolls back: locks are dropped, sends stay sent. */
  function Abort(s: State, w: nat): State
    requires w in s.workers && s.workers[w].sent <= |s.workers[w].rows|
  {
    s.(aborted := s.aborted + multiset(s.workers[w].rows[..s.workers[w].sent]), workers := s.workers - {w})
  }

  function SendNext(s: State, w: nat): State
    requires w in s.workers && s.workers[w].sent < |s.workers[w].rows|
  {
    var p := s.workers[w];
    s.(sends := s.sends + [p.rows[p.sent]], workers := s.workers[w := p.(sent := p.sent + 1)])
  }

  function Next(s: State, a: Step): Option<State> {
    match a
    case Insert(row) => Some(s.(rows := s.rows + [row]))
    case Begin(w, rows, limit) =>
      if w !in s.workers && Selection(s, rows, limit) then Some(s.(workers := s.workers[w := Pass(rows, 0)])) else None
    case Send(w) => if MaySend(s, w) then Some(SendNext(s, w)) else None
    case SendFail(w, landed) =>
      if MaySend(s, w) then Some(Abort(if landed then SendNext(s, w) else s, w)) else None
    case NoTopic(w) =>
      if HasNext(s, w) && !MaySend(s, w) then Some(Abort(s, w)) else None
    case Commit(w, landed) =>
      if !(w in s.workers && s.workers[w].sent == |s.workers[w].rows|) then None
      else if !landed then Some(Abort(s, w))
      else Some(s.(published := s.published + Members(s.workers[w].rows),
                   marks := s.marks + multiset(s.workers[w].rows),
                   workers := s.workers - {w}))
    case Crash(w) =>
      if w in s.workers && s.workers[w].sent <= |s.workers[w].rows| then Some(Abort(s, w)) else None
  }

  predicate HasNext(s: State, w: nat) {
    w in s.workers && s.workers[w].sent < |s.workers[w].rows| && s.workers[w].rows[s.workers[w].sent] < |s.rows|
  }

  predicate MaySend(s: State, w: nat) {
    HasNext(s, w) && s.rows[s.workers[w].rows[s.workers[w].sent]].hasTopic
  }

  /** Worker w has sent row r in its live pass. */
  ghost predicate HasSent(s: State, w: nat, r: nat) {
    w in s.workers && s.workers[w].sent <= |s.workers[w].rows| && r in s.workers[w].rows[..s.workers[w].sent]
  }

  /** Live sends of row r that are not yet settled by a commit or a rollback: 0 or 1. */
  ghost function InFlight(s: State, r: nat): nat {
    if exists w :: HasSent(s, w, r) then 1 else 0
  }

  /** Row by row, what was sent is what was marked, what was rolled back, and what is in flight. */
  ghost predicate Conserved(s: State) {
    forall r: nat :: multiset(s.sends)[r] == s.marks[r] + s.aborted[r] + InFlight(s, r)
  }

  ghost predicate LocksDisjoint(s: State) {
    forall v, w :: v in s.workers && w in s.workers && v != w ==>
      forall r :: r in s.workers[v].rows ==> r !in s.workers[w].rows
  }

  ghost predicate Inv(s: State) {
    && LocksDisjoint(s)
    && (forall w :: w in s.workers ==>
          && s.workers[w].sent <= |s.workers[w].rows|
          && Distinct(s.workers[w].rows)
          && (forall r :: r in s.workers[w].rows ==> r < |s.rows| && r !in s.published))
    && (forall r :: r in s.published ==> r < |s.rows|)
    && (forall r: nat :: s.marks[r] == if r in s.published then 1 else 0)
    && Conserved(s)
  }

  lemma {:induction false} DistinctCount(s: seq<nat>, r: nat)
    requires Distinct(s)
    ensures multiset(s)[r] == if r in s then 1 else 0
  {
    if s != [] {
      var front, last := s[..|s| - 1], s[|s| - 1];
      assert s == front + [last];
      DistinctCount(front, r);
    }
  }

  lemma SendConserves(s: State, w: nat, r: nat)
    requires Inv(s) && MaySend(s, w)
    ensures var t := SendNext(s, w); multiset(t.sends)[r] == t.marks[r] + t.aborted[r] + InFlight(t, r)
  {
    var p, t := s.workers[w], SendNext(s, w);
    var row := p.rows[p.sent];
    assert p.rows[..p.sent + 1] == p.rows[..p.sent] + [row];
    forall v ensures HasSent(t, v, r) <==> HasSent(s, v, r) || (v == w && r == row) {
    }
    if r == row {
      assert HasSent(t, w, r);
      forall v ensures !HasSent(s, v, r) {
        if v in s.workers && v != w { assert r in p.rows && r !in s.workers[v].rows; }
      }
    }
  }

  lemma SendKeeps(s: State, w: nat)
    requires Inv(s) && MaySend(s, w)
    ensures Inv(SendNext(s, w))
  {
    var p := s.workers[w];
    assert p.rows[p.sent] in p.rows;
    forall r: nat { SendConserves(s, w, r); }
  }

  /** Settling a pass: its sends move from in flight to the given ledger. */
  lemma SettleKeeps(s: State, w: nat, r: nat)
    requires Inv(s) && w in s.workers
    ensures var t := s.(workers := s.workers - {w});
            InFlight(s, r) == InFlight(t, r) + multiset(s.workers[w].rows[..s.workers[w].sent])[r]
  {
    var t := s.(workers := s.workers - {w});
    var p := s.workers[w];
    DistinctCount(p.rows[..p.sent], r);
    forall v ensures HasSent(t, v, r) <==> v != w && HasSent(s, v, r) {
    }
    if HasSent(s, w, r) {
      forall v ensures !HasSent(t, v, r) {
        if v in t.workers { assert r !in s.workers[v].rows; }
      }
    }
  }

  lemma AbortKeeps(s: State, w: nat)
    requires Inv(s) && w in s.workers
    ensures Inv(Abort(s, w))
  {
    var t := Abort(s, w);
    forall r: nat ensures multiset(t.sends)[r] == t.marks[r] + t.aborted[r] + InFlight(t, r) {
      SettleKeeps(s, w, r);
      assert InFlight(t, r) == InFlight(s.(workers := s.workers - {w}), r) by {
        SameInFlight(t, s.(workers := s.workers - {w}), r);
      }
    }
  }

  lemma SameInFlight(s: State, t: State, r: nat)
    requires s.workers == t.workers
    ensures InFlight(s, r) == InFlight(t, r)
  {
    assert forall w :: HasSent(s, w, r) == HasSent(t, w, r);
  }

  lemma CommitKeeps(s: State, w: nat)
    requires Inv(s) && Next(s, Commit(w, true)).Some?
    ensures Inv(Next(s, Commit(w, true)).value)
  {
    var t, p := Next(s, Commit(w, true)).value, s.workers[w];
    assert p.rows[..p.sent] == p.rows;
    forall r: nat
      ensures t.marks[r] == if r in t.published then 1 else 0
      ensures multiset(t.sends)[r] == t.marks[r] + t.aborted[r] + InFlight(t, r)
    {
      DistinctCount(p.rows, r);
      SettleKeeps(s, w, r);
      SameInFlight(t, s.(workers := s.workers - {w}), r);
    }
  }

  lemma BeginKeeps(s: State, w: nat, rows: seq<nat>, limit: nat)
    requires Inv(s) && Next(s, Begin(w, rows, limit)).Some?
    ensures Inv(Next(s, Begin(w, rows, limit)).value)
  {
    var t := Next(s, Begin(w, rows, limit)).value;
    forall r: nat ensures InFlight(t, r) == InFlight(s, r) {
      assert forall v :: HasSent(t, v, r) == HasSent(s, v, r);
    }
    forall r, v | r in rows && v in s.workers ensures r !in s.workers[v].rows {
      assert !Held(s, r);
    }
  }

  lemma StepKeeps(s: State, a: Step)
    requires Inv(s) && Next(s, a).Some?
    ensures Inv(Next(s, a).value)
  {
    match a
    case Insert(row) =>
      forall r: nat { SameInFlight(Next(s, a).value, s, r); }
    case Begin(w, rows, limit) => BeginKeeps(s, w, rows, limit);
    case Send(w) => SendKeeps(s, w);
    case SendFail(w, landed) =>
      if landed {
        SendKeeps(s, w);
        AbortKeeps(SendNext(s, w), w);
      } else {
        AbortKeeps(s, w);
      }
    case NoTopic(w) => AbortKeeps(s, w);
    case Commit(w, landed) =>
      if landed { CommitKeeps(s, w); } else { AbortKeeps(s, w); }
    case Crash(w) => AbortKeeps(s, w);
  }

  /** Over every interleaving: live workers hold disjoint rows, a row is marked at most once
      and exactly when published, and its sends are its marks plus its rolled-back and in-flight
      sends. So a published row has exactly one record on the broker if and only if no pass
      that sent it has rolled back. */
  lemma WorkersSafe(trace: seq<Step>, s: State)
    requires Run(Next, INIT, trace) == Some(s)
    ensures LocksDisjoint(s)
    ensures forall r: nat :: s.marks[r] == if r in s.published then 1 else 0
    ensures Conserved(s)
    ensures forall r: nat :: r in s.published ==> (multiset(s.sends)[r] == 1 <==> s.aborted[r] == 0)
  {
    assert Inv(INIT);
    forall t, a | Inv(t) && Next(t, a).Some? ensures Inv(Next(t, a).value) {
      StepKeeps(t, a);
    }
    RunInvariant(Next, Inv, INIT, trace);
    forall r: nat | r in s.published ensures multiset(s.sends)[r] == 1 <==> s.aborted[r] == 0 {
      MarkedOrInFlight(s, r);
    }
  }

  lemma MarkedOrInFlight(s: State, r: nat)
    requires Inv(s)
    ensures s.marks[r] + InFlight(s, r) <= 1
  {
    if w :| HasSent(s, w, r) {
      assert r in s.workers[w].rows;
    }
  }

  ghost predicate Aborts(a: Step, w: nat) {
    a == NoTopic(w) || a == Crash(w) || a == Commit(w, false) || a == SendFail(w, true) || a == SendFail(w, false)
  }

  /** A pass that rolls back leaves every row it had locked eligible for the next pass. */
  lemma AbortedRowsEligible(s: State, a: Step, w: nat, r: nat)
    requires Inv(s) && Aborts(a, w) && Next(s, a).Some?
    requires r in s.workers[w].rows
    ensures Eligible(Next(s, a).value, r)
  {
    var t := Next(s, a).value;
    assert t.workers == s.workers - {w} && t.rows == s.rows && t.published == s.published;
    assert r < |s.rows| && r !in s.published;
    forall v | v in t.workers ensures r !in t.workers[v].rows {
      assert v in s.workers && v != w;
    }
  }

  lemma StepTo(s0: State, trace: seq<Step>, s: State, a: Step) returns (more: seq<Step>, t: State)
    requires Run(Next, s0, trace) == Some(s) && Next(s, a).Some?
    ensures more == trace + [a] && Next(s, a) == Some(t) && Run(Next, s0, more) == Some(t)
  {
    RunSnoc(Next, s0, trace, a);
    more, t := trace + [a], Next(s, a).value;
  }

  /** Two free workers, without a single failure, put the two oldest rows on the broker against
      the order column, even for one tenant: order is kept within a pass, not across passes. */
  lemma WorkersReorder(s: State, r0: nat, r1: nat) returns (trace: seq<Step>, t: State)
    requires s.workers == map[] && r0 != r1 && Selection(s, [r0, r1], 2)
    requires HasTopic(s, r0) && HasTopic(s, r1)
    ensures Run(Next, s, trace) == Some(t)
    ensures trace == [Begin(0, [r0], 1), Begin(1, [r1], 1), Send(1), Commit(1, true), Send(0), Commit(0, true)]
    ensures t.sends == s.sends + [r1, r0] && r0 in t.published && r1 in t.published
  {
    OldestTwo(s, r0, r1);
    trace, t := StepTo(s, [], s, Begin(0, [r0], 1));
    assert t.workers == map[0 := Pass([r0], 0)] && t == s.(workers := map[0 := Pass([r0], 0)]);
    trace, t := StepTo(s, trace, t, Begin(1, [r1], 1));
    assert t.workers[0] == Pass([r0], 0) && t.workers[1] == Pass([r1], 0);
    trace, t := SendAndCommit(s, trace, t, 1, r1);
    assert t.workers[0] == Pass([r0], 0);
    trace, t := SendAndCommit(s, trace, t, 0, r0);
    assert t.sends == s.sends + [r1, r0];
  }

  lemma OldestTwo(s: State, r0: nat, r1: nat)
    requires s.workers == map[] && Selection(s, [r0, r1], 2)
    ensures Selection(s, [r0], 1) && Selection(s.(workers := map[0 := Pass([r0], 0)]), [r1], 1)
  {
    var two, t := [r0, r1], s.(workers := map[0 := Pass([r0], 0)]);
    assert two[0] == r0 && two[1] == r1 && r0 in two && r1 in two;
    assert At(s, two[0]) <= At(s, two[1]);
    forall r: nat ensures Held(t, r) <==> r == r0 {
      assert Held(t, r) <==> r in t.workers[0].rows;
    }
    assert forall r: nat :: !Held(s, r);
    assert forall r: nat :: At(t, r) == At(s, r);
  }

  /** A pass that dies after its send leaves the row to be sent again: the row ends up on the
      broker twice, published once. */
  lemma CrashSendsTwice(s: State, r: nat) returns (trace: seq<Step>, t: State)
    requires s.workers == map[] && Selection(s, [r], 1) && HasTopic(s, r)
    ensures Run(Next, s, trace) == Some(t)
    ensures trace == [Begin(0, [r], 1), Send(0), Crash(0), Begin(0, [r], 1), Send(0), Commit(0, true)]
    ensures t.sends == s.sends + [r, r] && r in t.published && t.aborted == s.aborted + multiset{r}
  {
    trace, t := StepTo(s, [], s, Begin(0, [r], 1));
    assert t.workers == map[0 := Pass([r], 0)];
    trace, t := SendAndCrash(s, trace, t, 0, r);
    assert t.workers == s.workers;
    SameSelection(s, t, [r], 1);
    trace, t := StepTo(s, trace, t, Begin(0, [r], 1));
    trace, t := SendAndCommit(s, trace, t, 0, r);
    assert s.sends + [r] + [r] == s.sends + [r, r];
  }

  lemma SendAndCrash(s0: State, trace: seq<Step>, s: State, w: nat, r: nat) returns (more: seq<Step>, t: State)
    requires Run(Next, s0, trace) == Some(s)
    requires w in s.workers && s.workers[w] == Pass([r], 0) && HasTopic(s, r)
    ensures Run(Next, s0, more) == Some(t) && more == trace + [Send(w), Crash(w)]
    ensures t == s.(sends := s.sends + [r], aborted := s.aborted + multiset{r}, workers := s.workers - {w})
  {
    var u;
    more, u := StepTo(s0, trace, s, Send(w));
    assert u.workers[w] == Pass([r], 1) && [r][..1] == [r];
    more, t := StepTo(s0, more, u, Crash(w));
    Overwrite(s.workers, w, Pass([r], 1), Pass([r], 1));
  }

  lemma SameSelection(s: State, t: State, rows: seq<nat>, limit: nat)
    requires t.rows == s.rows && t.published == s.published && t.workers == s.workers && Selection(s, rows, limit)
    ensures Selection(t, rows, limit)
  {
    assert forall r: nat :: Held(t, r) == Held(s, r);
    assert forall r: nat :: Eligible(t, r) == Eligible(s, r);
    assert forall r: nat :: At(t, r) == At(s, r);
  }

  lemma SendAndCommit(s0: State, trace: seq<Step>, s: State, w: nat, r: nat) returns (more: seq<Step>, t: State)
    requires Run(Next, s0, trace) == Some(s)
    requires w in s.workers && s.workers[w] == Pass([r], 0) && HasTopic(s, r)
    ensures Run(Next, s0, more) == Some(t) && more == trace + [Send(w), Commit(w, true)]
    ensures t.rows == s.rows && t.sends == s.sends + [r]
    ensures t.workers == s.workers - {w} && t.published == s.published + {r} && t.aborted == s.aborted
  {
    var u;
    more, u := StepTo(s0, trace, s, Send(w));
    assert u.workers[w] == Pass([r], 1);
    more, t := StepTo(s0, more, u, Commit(w, true));
    assert Members([r]) == {r};
  }

  lemma SendNextAt(s: State, w: nat, rows: seq<nat>, i: nat)
    requires w in s.workers && s.workers[w] == Pass(rows, i) && i < |rows|
    ensures SendNext(s, w) == s.(sends := s.sends + [rows[i]], workers := s.workers[w := Pass(rows, i + 1)])
  {
  }

  lemma Overwrite(workers: map<nat, Pass>, w: nat, p: Pass, q: Pass)
    ensures workers[w := p][w := q] == workers[w := q]
    ensures workers[w := p] - {w} == workers - {w}
    ensures w !in workers ==> workers - {w} == workers
  {
  }

  /** One worker's pass as it executes. The table's rows, locks and broker are shared; what
      the locking SELECT returned is an input, any answer the query may give. */
  class OutboxRelay {
    var rows: seq<Row>
    var published: set<nat>
    var sends: seq<nat>
    var marks: multiset<nat>
    var aborted: multiset<nat>
    var workers: map<nat, Pass>
    const batch: nat

    constructor (batch: nat)
      ensures View() == INIT && this.batch == batch
    {
      this.batch := batch;
      rows, published, sends, marks, aborted, workers := [], {}, [], multiset{}, multiset{}, map[];
    }

    ghost function View(): State
      reads this
    {
      State(rows, published, sends, marks, aborted, workers)
    }

    /** Rolls worker w's transaction back; what it sent stays on the broker. */
    method Rollback(w: nat)
      requires w in workers && workers[w].sent <= |workers[w].rows|
      modifies `aborted, `workers
      ensures View() == Abort(old(View()), w)
    {
      aborted := aborted + multiset(workers[w].rows[..workers[w].sent]);
      workers := workers - {w};
    }

    /** Sends the next locked row. A failed send may have landed, and rolls the pass back. */
    method SendOne(w: nat, ghost s0: State, ghost past: seq<Step>) returns (raised: bool, ghost trace: seq<Step>)
      requires HasNext(View(), w) && Run(Next, s0, past) == Some(View())
      modifies `sends, `workers, `aborted
      ensures Run(Next, s0, trace) == Some(View())
      ensures !raised ==> View() == SendNext(old(View()), w)
      ensures raised ==> workers == old(workers) - {w} && old(sends) <= sends
    {
      var p := workers[w];
      var row := p.rows[p.sent];
      if !rows[row].hasTopic {
        RunSnoc(Next, s0, past, NoTopic(w));
        Rollback(w);
        return true, past + [NoTopic(w)];
      }
      raised := *;
      var landed: bool := *;
      if raised {
        RunSnoc(Next, s0, past, SendFail(w, landed));
        if landed {
          sends, workers := sends + [row], workers[w := p.(sent := p.sent + 1)];
        }
        Rollback(w);
        assert workers == old(workers) - {w};
        return true, past + [SendFail(w, landed)];
      }
      RunSnoc(Next, s0, past, Send(w));
      sends, workers := sends + [row], workers[w := p.(sent := p.sent + 1)];
      trace := past + [Send(w)];
    }

    /** Marks and commits. A failed commit may have landed. */
    method CommitPass(w: nat, ghost s0: State, ghost past: seq<Step>) returns (raised: bool, ghost trace: seq<Step>)
      requires w in workers && workers[w].sent == |workers[w].rows| && Run(Next, s0, past) == Some(View())
      modifies `published, `marks, `aborted, `workers
      ensures Run(Next, s0, trace) == Some(View())
      ensures workers == old(workers) - {w}
      ensures published == old(published) + Members(old(workers)[w].rows) || (raised && published == old(published))
    {
      raised := *;
      var landed: bool := *;
      landed := landed || !raised;
      RunSnoc(Next, s0, past, Commit(w, landed));
      trace := past + [Commit(w, landed)];
      if landed {
        published := published + Members(workers[w].rows);
        marks := marks + multiset(workers[w].rows);
        workers := workers - {w};
      } else {
        Rollback(w);
      }
    }

    /** Sends a pass's rows one after the other, up to the first failure. */
    method SendAll(w: nat, selected: seq<nat>, ghost s0: State, ghost past: seq<Step>)
      returns (raised: bool, ghost trace: seq<Step>)
      requires w in workers && workers[w] == Pass(selected, 0) && forall r :: r in selected ==> r < |rows|
      requires Run(Next, s0, past) == Some(View())
      modifies `sends, `workers, `aborted
      ensures Run(Next, s0, trace) == Some(View())
      ensures !raised ==> workers == old(workers)[w := Pass(selected, |selected|)] && sends == old(sends) + selected
      ensures raised ==> workers == old(workers) - {w} && old(sends) <= sends
    {
      raised, trace := false, past;
      var i := 0;
      while i < |selected|
        invariant i <= |selected| && !raised
        invariant workers == old(workers)[w := Pass(selected, i)] && sends == old(sends) + selected[..i]
        invariant Run(Next, s0, trace) == Some(View())
      {
        assert selected[i] in selected;
        assert selected[..i + 1] == selected[..i] + [selected[i]];
        SendNextAt(View(), w, selected, i);
        raised, trace := SendOne(w, s0, trace);
        Overwrite(old(workers), w, Pass(selected, i), Pass(selected, i + 1));
        if raised {
          return;
        }
        i := i + 1;
      }
      assert selected[..|selected|] == selected;
    }

    /** One pass over the selected rows. It is a run of the transition system and drops its
        locks in every case; a normal return has sent the selected rows in order and marked
        exactly them. */
    method RelayOnce(w: nat, selected: seq<nat>) returns (n: nat, raised: bool, ghost trace: seq<Step>)
      requires w !in workers && Selection(View(), selected, batch)
      modifies this
      ensures Run(Next, old(View()), trace) == Some(View())
      ensures workers == old(workers) && rows == old(rows) && old(sends) <= sends
      ensures !raised ==> n == |selected| && sends == old(sends) + selected
                          && published == old(published) + Members(selected)
      ensures raised ==> published == old(published) || published == old(published) + Members(selected)
    {
      n := |selected|;
      ghost var s0 := View();
      RunSnoc(Next, s0, [], Begin(w, selected, batch));
      trace := [] + [Begin(w, selected, batch)];
      workers := workers[w := Pass(selected, 0)];
      Overwrite(s0.workers, w, Pass(selected, 0), Pass(selected, n));
      raised, trace := SendAll(w, selected, s0, trace);
      if raised {
        return;
      }
      Overwrite(s0.workers, w, Pass(selected, n), Pass(selected, n));
      raised, trace := CommitPass(w, s0, trace);
    }
  }
}
