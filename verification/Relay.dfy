/** The platform event envelope, cut down to what delivery looks at. */
module Events {
  datatype Event = Event(tenant: string, eventId: string, payload: string)
}

/** The transactional outbox and its single polling relay, as a transition system.
    A row's id is its position in the outbox history; the topic records the row id of
    every message in broker order. Labels carry what the database, the broker and the
    process scheduler decide: a failed publish or a failed mark may still have landed. */
module Relay {
  import opened Collections
  import opened Machine
  import opened Events

  /** Progress of one ProcessOnce pass. */
  datatype Pass =
    | Idle
    | Publishing(rows: seq<nat>, done: nat)
    | Marking(rows: seq<nat>)

  datatype State = State(
    outbox: seq<Event>,             // every row ever written, oldest first
    publishedAt: map<nat, int>,     // published_at of the marked rows
    pruned: set<nat>,               // rows deleted by the retention sweep
    topic: seq<nat>,                // row id of every message on the topic
    pass: Pass)

  datatype Step =
    | Append(event: Event)
    | Fetch(limit: nat)
    | PublishOk
    | PublishFail(landed: bool)
    | Mark(now: int, landed: bool, ok: bool)
    | Crash
    | Prune(ids: set<nat>, cutoff: int)

  const INIT := State([], map[], {}, [], Idle)

  function Eligible(s: State): nat -> bool {
    (i: nat) => i !in s.publishedAt && i !in s.pruned
  }

  /** Ids of the rows a fetch may return: present, published_at null, oldest first. */
  function Unpublished(s: State): seq<nat> {
    Filter(Eligible(s), Range(0, |s.outbox|))
  }

  function OfTenant(tenant: string): Event -> bool {
    (e: Event) => e.tenant == tenant
  }

  function Take<A>(s: seq<A>, limit: nat): seq<A> {
    if |s| <= limit then s else s[..limit]
  }

  function Stamp(m: map<nat, int>, rows: seq<nat>, now: int): map<nat, int> {
    map i | i in m.Keys + (set x | x in rows) :: if i in rows then now else m[i]
  }

  function Next(s: State, a: Step): Option<State> {
    match a
    case Append(e) => Some(s.(outbox := s.outbox + [e]))
    case Fetch(limit) =>
      if !s.pass.Idle? then None
      else
        var rows := Take(Unpublished(s), limit);
        Some(s.(pass := if rows == [] then Idle else Publishing(rows, 0)))
    case PublishOk =>
      if !(s.pass.Publishing? && s.pass.done < |s.pass.rows|) then None
      else
        var rows, done := s.pass.rows, s.pass.done;
        Some(s.(topic := s.topic + [rows[done]],
                pass := if done + 1 == |rows| then Marking(rows) else Publishing(rows, done + 1)))
    case PublishFail(landed) =>
      if !(s.pass.Publishing? && s.pass.done < |s.pass.rows|) then None
      else
        var rows, done := s.pass.rows, s.pass.done;
        Some(s.(topic := if landed then s.topic + [rows[done]] else s.topic,
                pass := if done == 0 then Idle else Marking(rows[..done])))
    case Mark(now, landed, ok) =>
      if !(s.pass.Marking? && (ok ==> landed)) then None
      else Some(s.(publishedAt := if landed then Stamp(s.publishedAt, s.pass.rows, now) else s.publishedAt,
                   pass := Idle))
    case Crash => Some(s.(pass := Idle))
    case Prune(ids, cutoff) =>
      if forall i :: i in ids ==> i in s.publishedAt && i !in s.pruned && s.publishedAt[i] < cutoff
      then Some(s.(pruned := s.pruned + ids))
      else None
  }

  /** What every step keeps: rows 0..m are the published ones, and the distinct rows on
      the topic are 0..p in order, the pass in progress standing at or before p. */
  ghost predicate InvAt(s: State, m: nat, p: nat) {
    && m <= p <= |s.outbox|
    && (forall i: nat :: i in s.publishedAt <==> i < m)
    && (forall i: nat :: i in s.pruned ==> i < m)
    && FirstOccurrences(s.topic) == Range(0, p)
    && match s.pass
       case Idle => true
       case Publishing(rows, done) =>
         done < |rows| && m + |rows| <= |s.outbox| && rows == Range(m, m + |rows|) && m + done <= p
       case Marking(rows) => m + |rows| <= p && rows == Range(m, m + |rows|)
  }

  ghost predicate Inv(s: State) {
    exists m: nat, p: nat :: InvAt(s, m, p)
  }

  lemma RangeMembers(lo: nat, hi: nat)
    requires lo <= hi
    ensures forall i: nat :: i in Range(lo, hi) <==> lo <= i < hi
  {
    forall i: nat | lo <= i < hi ensures i in Range(lo, hi) {
      assert Range(lo, hi)[i - lo] == i;
    }
  }

  lemma FilterRange(p: nat -> bool, m: nat, n: nat)
    requires m <= n
    requires forall i: nat :: i < n ==> (p(i) <==> m <= i)
    ensures Filter(p, Range(0, n)) == Range(m, n)
  {
    RangeMembers(0, n);
    RangeMembers(m, n);
    FilterIncreasing(p, Range(0, n));
    IncreasingUnique(Filter(p, Range(0, n)), Range(m, n));
  }

  /** What a fetch promises: rows in id order, each present and not yet published, at most the
      limit; a row of that kind is left out only for want of room, and then only one younger
      than all that are given. */
  ghost predicate OldestFirst(s: State, rows: seq<nat>, limit: nat) {
    && |rows| <= limit && StrictlyIncreasing(rows)
    && (forall i :: i in rows ==> i < |s.outbox| && i !in s.publishedAt && i !in s.pruned)
    && (forall i: nat :: i < |s.outbox| && i !in s.publishedAt && i !in s.pruned && i !in rows ==>
          |rows| == limit && forall j :: j in rows ==> j < i)
  }

  lemma TakenAreOldest(s: State, limit: nat)
    ensures OldestFirst(s, Take(Unpublished(s), limit), limit)
  {
    var all, rows := Unpublished(s), Take(Unpublished(s), limit);
    RangeMembers(0, |s.outbox|);
    FilterIncreasing(Eligible(s), Range(0, |s.outbox|));
    assert forall j :: j in rows ==> j in all;
    forall i: nat | i in all && i !in rows ensures |rows| == limit && forall j :: j in rows ==> j < i {
      var k :| 0 <= k < |all| && all[k] == i;
      assert k >= limit;
    }
  }

  /** One more row of the scan. */
  lemma ScanStep(p: nat -> bool, i: nat, limit: nat)
    ensures var was, now := Take(Filter(p, Range(0, i)), limit), Take(Filter(p, Range(0, i + 1)), limit);
            now == if |was| < limit && p(i) then was + [i] else was
  {
    RangeSnoc(0, i);
    FilterSnoc<nat>(p, Range(0, i), i);
  }

  /** Under the invariant the fetch returns exactly the rows from the first unmarked one on. */
  lemma UnpublishedIsTail(s: State, m: nat, p: nat)
    requires InvAt(s, m, p)
    ensures Unpublished(s) == Range(m, |s.outbox|)
  {
    FilterRange(Eligible(s), m, |s.outbox|);
  }

  lemma RangeSnoc(lo: nat, hi: nat)
    requires lo <= hi
    ensures Range(lo, hi + 1) == Range(lo, hi) + [hi]
  {
  }

  lemma PublishKeeps(topic: seq<nat>, p: nat, row: nat)
    requires FirstOccurrences(topic) == Range(0, p)
    requires row <= p
    ensures FirstOccurrences(topic + [row]) == Range(0, if row == p then p + 1 else p)
  {
    RangeMembers(0, p);
    FirstOccurrencesSnoc(topic, row);
    if row == p {
      RangeSnoc(0, p);
    }
  }

  lemma FetchKeeps(s: State, limit: nat, m: nat, p: nat)
    requires InvAt(s, m, p) && Next(s, Fetch(limit)).Some?
    ensures InvAt(Next(s, Fetch(limit)).value, m, p)
  {
    UnpublishedIsTail(s, m, p);
    var rows := Take(Unpublished(s), limit);
    assert rows == Range(m, m + |rows|);
  }

  lemma PublishOkKeeps(s: State, m: nat, p: nat)
    requires InvAt(s, m, p) && Next(s, PublishOk).Some?
    ensures InvAt(Next(s, PublishOk).value, m, if m + s.pass.done == p then p + 1 else p)
  {
    var row := s.pass.rows[s.pass.done];
    assert row == m + s.pass.done;
    PublishKeeps(s.topic, p, row);
  }

  lemma PublishFailKeeps(s: State, landed: bool, m: nat, p: nat)
    requires InvAt(s, m, p) && Next(s, PublishFail(landed)).Some?
    ensures InvAt(Next(s, PublishFail(landed)).value, m, if landed && m + s.pass.done == p then p + 1 else p)
  {
    var row := s.pass.rows[s.pass.done];
    assert row == m + s.pass.done;
    if landed {
      PublishKeeps(s.topic, p, row);
    }
    assert s.pass.rows[..s.pass.done] == Range(m, m + s.pass.done);
  }

  lemma MarkKeeps(s: State, now: int, landed: bool, ok: bool, m: nat, p: nat)
    requires InvAt(s, m, p) && Next(s, Mark(now, landed, ok)).Some?
    ensures InvAt(Next(s, Mark(now, landed, ok)).value, if landed then m + |s.pass.rows| else m, p)
  {
    var rows := s.pass.rows;
    forall i: nat ensures i in rows <==> m <= i < m + |rows| {
      if m <= i < m + |rows| { assert rows[i - m] == i; }
    }
  }

  lemma StepKeeps(s: State, a: Step, m: nat, p: nat) returns (m': nat, p': nat)
    requires InvAt(s, m, p) && Next(s, a).Some?
    ensures InvAt(Next(s, a).value, m', p')
  {
    m', p' := m, p;
    match a
    case Append(_) =>
    case Fetch(limit) => FetchKeeps(s, limit, m, p);
    case PublishOk =>
      PublishOkKeeps(s, m, p);
      p' := if m + s.pass.done == p then p + 1 else p;
    case PublishFail(landed) =>
      PublishFailKeeps(s, landed, m, p);
      p' := if landed && m + s.pass.done == p then p + 1 else p;
    case Mark(now, landed, ok) =>
      MarkKeeps(s, now, landed, ok, m, p);
      m' := if landed then m + |s.pass.rows| else m;
    case Crash =>
    case Prune(_, _) =>
  }

  lemma AlwaysInv(trace: seq<Step>)
    requires Run(Next, INIT, trace).Some?
    ensures Inv(Run(Next, INIT, trace).value)
  {
    assert InvAt(INIT, 0, 0);
    forall t, a | Inv(t) && Next(t, a).Some? ensures Inv(Next(t, a).value) {
      var m: nat, p: nat :| InvAt(t, m, p);
      var m', p' := StepKeeps(t, a, m, p);
    }
    RunInvariant(Next, Inv, INIT, trace);
  }

  /** The event in a row. */
  function RowEvent(outbox: seq<Event>): nat -> Event {
    (i: nat) => if i < |outbox| then outbox[i] else Event("", "", "")
  }

  /** The messages on the topic, as events. */
  function Messages(s: State): seq<Event> {
    Map(RowEvent(s.outbox), s.topic)
  }

  /** The distinct messages in order of first appearance. */
  function Delivered(s: State): seq<Event> {
    Map(RowEvent(s.outbox), FirstOccurrences(s.topic))
  }

  /** Relay safety over every run: only written rows reach the topic; the marked rows are
      a prefix of the outbox and each of them is on the topic; first occurrences on the
      topic spell out a prefix of the outbox, and so for the rows of every single tenant;
      a row that is not marked is still there to be fetched. */
  lemma RelaySafety(trace: seq<Step>, s: State, tenant: string)
    requires Run(Next, INIT, trace) == Some(s)
    ensures forall i :: i in s.topic ==> i < |s.outbox|
    ensures forall i: nat :: i in s.publishedAt ==> i in s.topic
    ensures forall i: nat, j: nat :: i < j && j in s.publishedAt ==> i in s.publishedAt
    ensures Delivered(s) <= s.outbox
    ensures Filter(OfTenant(tenant), Delivered(s)) <= Filter(OfTenant(tenant), s.outbox)
    ensures forall i: nat :: i < |s.outbox| && i !in s.publishedAt ==> i in Unpublished(s)
  {
    AlwaysInv(trace);
    var m: nat, p: nat :| InvAt(s, m, p);
    forall i: nat ensures i in s.topic <==> i < p {
      assert i in s.topic <==> i in Range(0, p);
      if i < p { assert Range(0, p)[i] == i; }
    }
    assert Delivered(s) == s.outbox[..p];
    FilterPrefix(OfTenant(tenant), Delivered(s), s.outbox);
    UnpublishedIsTail(s, m, p);
    forall i: nat | i < |s.outbox| && i !in s.publishedAt ensures i in Unpublished(s) {
      assert Range(m, |s.outbox|)[i - m] == i;
    }
  }

  lemma FetchStep(s0: State, limit: nat)
    requires s0.pass.Idle?
    ensures var rows := Take(Unpublished(s0), limit);
            Run(Next, s0, [Fetch(limit)]) == Some(s0.(pass := if rows == [] then Idle else Publishing(rows, 0)))
  {
    RunSnoc(Next, s0, [], Fetch(limit));
    assert [] + [Fetch(limit)] == [Fetch(limit)];
  }

  lemma PublishStep(s0: State, past: seq<Step>, s: State, rows: seq<nat>, i: nat, topic: seq<nat>, ok: bool)
      returns (trace: seq<Step>)
    requires i < |rows| && s.pass == Publishing(rows, i) && Run(Next, s0, past) == Some(s)
    requires topic == s.topic + [rows[i]] || (!ok && topic == s.topic)
    ensures var pass := if ok && i + 1 < |rows| then Publishing(rows, i + 1)
                        else if ok then Marking(rows)
                        else if i == 0 then Idle
                        else Marking(rows[..i]);
            Run(Next, s0, trace) == Some(s.(topic := topic, pass := pass))
  {
    var a := if ok then PublishOk else PublishFail(topic != s.topic);
    RunSnoc(Next, s0, past, a);
    trace := past + [a];
  }

  lemma MarkStep(s0: State, trace: seq<Step>, s: State, rows: seq<nat>, now: int, landed: bool, ok: bool)
    requires Run(Next, s0, trace) == Some(s.(pass := Marking(rows)))
    requires s.pass.Idle? && (ok ==> landed)
    ensures Run(Next, s0, trace + [Mark(now, landed, ok)]) ==
            Some(if landed then s.(publishedAt := Stamp(s.publishedAt, rows, now)) else s)
  {
    RunSnoc(Next, s0, trace, Mark(now, landed, ok));
  }

  /** The relay as it runs: a database table, a broker topic and the polling pass over them.
      The database and broker operations may fail, and a failed write may have landed. */
  class RelayService {
    var outbox: seq<Event>
    var publishedAt: map<nat, int>
    var pruned: set<nat>
    var topic: seq<nat>
    const batch: nat

    constructor (batch: nat)
      ensures this.batch == batch && View() == INIT
    {
      this.batch := batch;
      outbox, publishedAt, pruned, topic := [], map[], {}, [];
    }

    ghost function View(): State
      reads this
    {
      During(Idle)
    }

    ghost function During(pass: Pass): State
      reads this
    {
      State(outbox, publishedAt, pruned, topic, pass)
    }

    /** The store's side of the interface: scan the table by id. */
    method FetchUnpublished(limit: nat) returns (rows: seq<nat>, err: bool)
      ensures !err ==> rows == Take(Unpublished(View()), limit) && OldestFirst(View(), rows, limit)
    {
      err := *;
      rows := [];
      if err {
        return;
      }
      ghost var s := View();
      var i := 0;
      while i < |outbox|
        invariant i <= |outbox|
        invariant rows == Take(Filter(Eligible(s), Range(0, i)), limit)
      {
        ScanStep(Eligible(s), i, limit);
        if |rows| < limit && i !in publishedAt && i !in pruned {
          rows := rows + [i];
        }
        i := i + 1;
      }
      TakenAreOldest(s, limit);
    }

    method Publish(row: nat) returns (err: bool)
      modifies `topic
      ensures topic == old(topic) + [row] || (err && topic == old(topic))
    {
      err := *;
      var landed: bool := *;
      if !err || landed {
        topic := topic + [row];
      }
    }

    method MarkPublished(ids: seq<nat>, now: int) returns (err: bool)
      modifies `publishedAt
      ensures publishedAt == Stamp(old(publishedAt), ids, now) || (err && publishedAt == old(publishedAt))
    {
      err := *;
      var landed: bool := *;
      if !err || landed {
        publishedAt := Stamp(publishedAt, ids, now);
      }
    }

    /** One publish of a pass. A failed one may have landed, and ends the loop. */
    method PublishOne(rows: seq<nat>, i: nat, ghost s0: State, ghost past: seq<Step>)
      returns (failed: bool, ghost trace: seq<Step>)
      requires i < |rows| && Run(Next, s0, past) == Some(During(Publishing(rows, i)))
      modifies `topic
      ensures topic == old(topic) + [rows[i]] || (failed && topic == old(topic))
      ensures failed ==> Run(Next, s0, trace) == Some(During(if i == 0 then Idle else Marking(rows[..i])))
      ensures !failed ==>
                Run(Next, s0, trace) == Some(During(if i + 1 < |rows| then Publishing(rows, i + 1) else Marking(rows)))
    {
      ghost var s := During(Publishing(rows, i));
      failed := Publish(rows[i]);
      trace := PublishStep(s0, past, s, rows, i, topic, !failed);
    }

    /** The publish loop of a pass: rows go out in order and the first failure ends it. */
    method PublishRows(rows: seq<nat>, ghost s0: State, ghost past: seq<Step>)
      returns (done: seq<nat>, ghost trace: seq<Step>)
      requires rows != []
      requires Run(Next, s0, past) == Some(During(Publishing(rows, 0)))
      modifies `topic
      ensures |done| <= |rows| && done == rows[..|done|]
      ensures Run(Next, s0, trace) == Some(During(if done == [] then Idle else Marking(done)))
      ensures old(topic) + done <= topic && |topic| <= |old(topic)| + |done| + 1
    {
      done, trace := [], past;
      var i := 0;
      while i < |rows|
        invariant 0 <= i <= |rows|
        invariant done == rows[..i] && topic == old(topic) + done
        invariant Run(Next, s0, trace) == Some(During(if i < |rows| then Publishing(rows, i) else Marking(rows)))
      {
        assert rows[..i + 1] == rows[..i] + [rows[i]];
        var failed;
        failed, trace := PublishOne(rows, i, s0, trace);
        if failed {
          return;
        }
        done := done + [rows[i]];
        i := i + 1;
      }
      assert rows[..|rows|] == rows;
    }

    /** One pass. It is a run of the transition system; it puts the oldest n unpublished rows
        on the topic in order with at most one more message behind them; and unless it
        reports an error exactly those n rows become published. */
    method ProcessOnce(now: int) returns (n: nat, err: bool, ghost trace: seq<Step>)
      modifies `topic, `publishedAt
      ensures Run(Next, old(View()), trace) == Some(View())
      ensures n <= |Take(Unpublished(old(View())), batch)|
      ensures var sent := Take(Unpublished(old(View())), batch)[..n];
              && old(topic) + sent <= topic
              && |topic| <= |old(topic)| + n + 1
              && (!err ==> publishedAt == Stamp(old(publishedAt), sent, now))
              && (err ==> publishedAt == old(publishedAt) || publishedAt == Stamp(old(publishedAt), sent, now))
    {
      ghost var s0 := View();
      assert Stamp(publishedAt, [], now) == publishedAt;
      var rows;
      rows, err := FetchUnpublished(batch);
      if err {
        return 0, true, [];
      }
      trace := [Fetch(batch)];
      FetchStep(s0, batch);
      var done: seq<nat> := [];
      if rows != [] {
        done, trace := PublishRows(rows, s0, trace);
      }
      n := |done|;
      if |done| > 0 {
        ghost var s := View();
        err := MarkPublished(done, now);
        ghost var landed := publishedAt == Stamp(s.publishedAt, done, now);
        MarkStep(s0, trace, s, done, now, landed, !err);
        trace := trace + [Mark(now, landed, !err)];
      }
    }
  }
}
