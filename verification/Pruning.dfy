/** Retention sweeps: batched deletes of expired rows, in the Go and the Python form, and
    their place beside a running relay. */
module Pruning {
  import opened Collections
  import opened Machine
  import Relay

  /** A table's rows by id, each with its nullable timestamp column. */
  type Table = map<nat, Option<int>>

  /** Rows whose timestamp is set and before the cutoff: a null timestamp never compares. */
  function Expired(table: Table, cutoff: int): set<nat> {
    set i | i in table && table[i].Some? && table[i].value < cutoff
  }

  /** One committed delete: the cutoff it computed and the rows it removed. */
  datatype Pass = Pass(cutoff: int, removed: set<nat>)

  /** What one DELETE ... LIMIT may remove. */
  ghost predicate Legal(table: Table, p: Pass, limit: nat) {
    var expired := Expired(table, p.cutoff);
    p.removed <= expired && |p.removed| == if |expired| <= limit then |expired| else limit
  }

  function Remove(table: Table, p: Pass): Table {
    table - p.removed
  }

  /** The table after a sequence of passes. */
  function After(table: Table, passes: seq<Pass>): Table {
    if passes == [] then table else Remove(After(table, passes[..|passes| - 1]), passes[|passes| - 1])
  }

  ghost predicate AllLegal(table: Table, passes: seq<Pass>, limit: nat) {
    forall i :: 0 <= i < |passes| ==> Legal(After(table, passes[..i]), passes[i], limit)
  }

  /** Every pass took its cutoff between the two instants. */
  ghost predicate Timely(passes: seq<Pass>, lo: int, hi: int) {
    forall i :: 0 <= i < |passes| ==> lo <= passes[i].cutoff <= hi
  }

  lemma TimelySnoc(passes: seq<Pass>, p: Pass, lo: int, was: int, hi: int)
    requires Timely(passes, lo, was) && was <= hi && lo <= p.cutoff <= hi
    ensures Timely(passes, lo, hi) && Timely(passes + [p], lo, hi)
  {
  }

  lemma AllLegalSnoc(table: Table, passes: seq<Pass>, p: Pass, limit: nat)
    requires AllLegal(table, passes, limit) && Legal(After(table, passes), p, limit)
    ensures AllLegal(table, passes + [p], limit)
    ensures After(table, passes + [p]) == Remove(After(table, passes), p)
  {
    var more := passes + [p];
    Snoc(passes, p);
    forall i | 0 <= i < |more| ensures Legal(After(table, more[..i]), more[i], limit) {
      if i < |passes| {
        assert more[..i] == passes[..i];
      }
    }
  }

  lemma RemoveCount(table: Table, p: Pass)
    requires p.removed <= table.Keys
    ensures |Remove(table, p)| == |table| - |p.removed|
  {
    assert Remove(table, p).Keys == table.Keys - p.removed;
    assert |table.Keys| == |table| && |Remove(table, p).Keys| == |Remove(table, p)|;
  }

  /** A legal sweep touches nothing but expired rows: what is gone had a timestamp before the
      cutoff of some pass, and every other row is as it was. */
  lemma {:induction false} SweepRemovesOnlyExpired(table: Table, passes: seq<Pass>, limit: nat, i: nat)
    requires AllLegal(table, passes, limit) && i in table
    ensures i in After(table, passes) ==> After(table, passes)[i] == table[i]
    ensures i !in After(table, passes) ==>
              exists k :: 0 <= k < |passes| && i in passes[k].removed && table[i].Some? &&
                  table[i].value < passes[k].cutoff
  {
    if passes != [] {
      var n := |passes| - 1;
      forall j | 0 <= j < n ensures passes[..n][..j] == passes[..j] {
      }
      SweepRemovesOnlyExpired(table, passes[..n], limit, i);
      assert Legal(After(table, passes[..n]), passes[n], limit);
      if i in After(table, passes[..n]) && i !in After(table, passes) {
        assert i in passes[n].removed;
      } else if i !in After(table, passes[..n]) {
        var k :| 0 <= k < n && i in passes[..n][k].removed && table[i].Some? && table[i].value < passes[..n][k].cutoff;
        assert passes[..n][k] == passes[k];
      }
    }
  }

  /** The rows of an outbox as the sweep sees them. */
  function LiveRows(s: Relay.State): Table {
    map i: nat | i < |s.outbox| && i !in s.pruned :: if i in s.publishedAt then Some(s.publishedAt[i]) else None
  }

  function PruneStep(p: Pass): Relay.Step {
    Relay.Prune(p.removed, p.cutoff)
  }

  function PruneSteps(passes: seq<Pass>): seq<Relay.Step> {
    Map(PruneStep, passes)
  }

  /** Beside the relay: a legal sweep of the outbox table is a run of the relay's transition
      system, whatever the relay's own pass is doing. So unpublished rows survive every sweep
      and the relay keeps its invariant. */
  lemma {:induction false} SweepIsRelayRun(s: Relay.State, passes: seq<Pass>, limit: nat)
    requires AllLegal(LiveRows(s), passes, limit)
    ensures var r := Run(Relay.Next, s, PruneSteps(passes));
            && r.Some?
            && r.value == s.(pruned := r.value.pruned)
            && LiveRows(r.value) == After(LiveRows(s), passes)
            && (forall i: nat :: i < |s.outbox| && i !in s.publishedAt && i !in s.pruned ==> i !in r.value.pruned)
            && (Relay.Inv(s) ==> Relay.Inv(r.value))
  {
    if passes != [] {
      var n := |passes| - 1;
      forall j | 0 <= j < n ensures passes[..n][..j] == passes[..j] {
      }
      SweepIsRelayRun(s, passes[..n], limit);
      var t := Run(Relay.Next, s, PruneSteps(passes[..n])).value;
      var p := passes[n];
      assert Legal(LiveRows(t), p, limit);
      PassIsPruneStep(t, p);
      RunSnoc(Relay.Next, s, PruneSteps(passes[..n]), PruneStep(p));
      FrontLast(passes);
      MapSnoc(PruneStep, passes[..n], p);
    }
  }

  lemma PassIsPruneStep(s: Relay.State, p: Pass)
    requires p.removed <= Expired(LiveRows(s), p.cutoff)
    ensures Relay.Next(s, Relay.Prune(p.removed, p.cutoff)) == Some(s.(pruned := s.pruned + p.removed))
    ensures LiveRows(s.(pruned := s.pruned + p.removed)) == Remove(LiveRows(s), p)
    ensures forall i: nat :: i in p.removed ==> i in s.publishedAt
    ensures Relay.Inv(s) ==> Relay.Inv(s.(pruned := s.pruned + p.removed))
  {
    var t := s.(pruned := s.pruned + p.removed);
    forall i: nat | i in p.removed ensures i in s.publishedAt && s.publishedAt[i] < p.cutoff && i !in s.pruned {
      assert i in LiveRows(s);
    }
    if Relay.Inv(s) {
      var m: nat, q: nat :| Relay.InvAt(s, m, q);
      assert Relay.InvAt(t, m, q);
    }
  }

  predicate IdentStart(c: char) {
    'a' <= c <= 'z' || 'A' <= c <= 'Z' || c == '_'
  }

  /** A plain SQL identifier. */
  predicate IdentOK(s: string) {
    s != "" && IdentStart(s[0]) && forall c :: c in s ==> IdentStart(c) || '0' <= c <= '9'
  }

  /** The same in dotted parts, for the name of a session setting. */
  predicate SettingOK(s: string) {
    s != "" && IdentStart(s[0]) && forall c :: c in s ==> IdentStart(c) || '0' <= c <= '9' || c == '.'
  }

  /** Python's end-of-pattern mark also matches before one trailing line break; Go's does not. */
  predicate PyMatches(ok: string -> bool, s: string) {
    ok(s) || (s != "" && s[|s| - 1] == '\n' && ok(s[..|s| - 1]))
  }

  /** So the Python check lets through exactly the identifiers and those with one line break
      behind them. */
  lemma PyMatchesMore(s: string)
    ensures PyMatches(IdentOK, s) && !IdentOK(s) <==> s != "" && s[|s| - 1] == '\n' && IdentOK(s[..|s| - 1])
  {
    if s != "" && s[|s| - 1] == '\n' {
      assert '\n' in s;
    }
  }

  /** Stopped: the process was ended from outside while the sweep was still going. */
  datatype Outcome = Done | Cancelled | Failed | UnsafeIdentifier | Stopped

  /** A table under retention, with the database clock and the caller's context. */
  class Sweeper {
    const name: string
    const column: string
    const retentionSeconds: int
    var table: Table
    var clock: int

    constructor (name: string, column: string, retentionSeconds: int, table: Table, clock: int)
      ensures this.name == name && this.column == column && this.retentionSeconds == retentionSeconds
      ensures this.table == table && this.clock == clock
    {
      this.name, this.column, this.retentionSeconds := name, column, retentionSeconds;
      this.table, this.clock := table, clock;
    }

    method Choose(from: set<nat>, limit: nat) returns (chosen: set<nat>)
      ensures chosen <= from && |chosen| == if |from| <= limit then |from| else limit
    {
      chosen := {};
      var rest := from;
      while rest != {} && |chosen| < limit
        invariant chosen <= from && rest == from - chosen
        invariant |chosen| <= limit && |chosen| + |rest| == |from|
        decreases |rest|
      {
        var x :| x in rest;
        chosen, rest := chosen + {x}, rest - {x};
      }
    }

    /** One transaction: advance the clock, delete up to limit expired rows. A failed
        transaction may have landed. */
    method DeletePass(limit: nat) returns (n: nat, err: bool, ghost pass: Pass)
      modifies `table, `clock
      ensures clock >= old(clock) && pass.cutoff == clock - retentionSeconds
      ensures Legal(old(table), pass, limit) && n == |pass.removed|
      ensures table == Remove(old(table), pass) || (err && table == old(table))
    {
      var elapsed: int := *;
      clock := if elapsed > 0 then clock + elapsed else clock;
      var doomed := Choose(Expired(table, clock - retentionSeconds), limit);
      n := |doomed|;
      pass := Pass(clock - retentionSeconds, doomed);
      err := *;
      var landed: bool := *;
      if !err || landed {
        table := table - doomed;
      }
    }

    /** The Go sweep. Passes run until one deletes fewer than a full batch; the count returned
        is the rows removed (short by at most the last batch when a commit failed but landed),
        and a normal end leaves nothing older than the last pass's cutoff. */
    method PruneOnce(batch: int) returns (total: nat, outcome: Outcome, ghost passes: seq<Pass>)
      modifies `table, `clock
      ensures var limit: nat := if batch <= 0 then 1000 else batch;
              && AllLegal(old(table), passes, limit) && table == After(old(table), passes)
              && (outcome != Failed ==> total == |old(table)| - |table|)
              && (outcome == Failed ==> total <= |old(table)| - |table| <= total + limit)
      ensures outcome == UnsafeIdentifier <==>
          !IdentOK(name) || !IdentOK(if column == "" then "published_at" else column)
      ensures outcome == UnsafeIdentifier ==> passes == []
      ensures Timely(passes, old(clock) - retentionSeconds, clock - retentionSeconds)
      ensures outcome == Done ==> passes != [] && Expired(table, passes[|passes| - 1].cutoff) == {}
      ensures outcome == Cancelled ==>
          passes != [] && |passes[|passes| - 1].removed| == if batch <= 0 then 1000 else batch
    {
      passes, total := [], 0;
      var col := if column == "" then "published_at" else column;
      var limit: nat := if batch <= 0 then 1000 else batch;
      if !IdentOK(name) || !IdentOK(col) {
        return 0, UnsafeIdentifier, [];
      }
      while true
        invariant AllLegal(old(table), passes, limit) && table == After(old(table), passes)
        invariant total == |old(table)| - |table| && clock >= old(clock)
        invariant Timely(passes, old(clock) - retentionSeconds, clock - retentionSeconds)
        decreases |table|
      {
        ghost var before, since := table, clock;
        var n, err;
        ghost var pass;
        n, err, pass := DeletePass(limit);
        RemoveCount(before, pass);
        TimelySnoc(passes, pass, old(clock) - retentionSeconds, since - retentionSeconds, clock - retentionSeconds);
        if err {
          if table != before {
            AllLegalSnoc(old(table), passes, pass, limit);
            passes := passes + [pass];
          }
          return total, Failed, passes;
        }
        AllLegalSnoc(old(table), passes, pass, limit);
        passes := passes + [pass];
        total := total + n;
        if n < limit {
          ExhaustedPass(before, pass, limit);
          return total, Done, passes;
        }
        var cancelled: bool := *;
        if cancelled {
          return total, Cancelled, passes;
        }
      }
    }

    /** The Python sweep: no cancellation check, and the batch size is taken as given. patience
        is the number of passes the process gets. With a batch size of at least one the sweep
        ends by itself, at the latest after one pass more than there are rows; with zero it
        never does, and a negative one is an error of the database. */
    method PruneTable(batch: int, workerGuc: Option<string>, patience: nat)
      returns (total: nat, outcome: Outcome, ghost passes: seq<Pass>)
      modifies `table, `clock
      ensures var limit: nat := if batch < 0 then 0 else batch;
              && AllLegal(old(table), passes, limit) && table == After(old(table), passes)
              && (outcome != Failed ==> total == |old(table)| - |table|)
              && (outcome == Failed ==> total <= |old(table)| - |table| <= total + limit)
      ensures outcome == UnsafeIdentifier <==>
              !PyMatches(IdentOK, name) || !PyMatches(IdentOK, column) ||
              (workerGuc.Some? && !PyMatches(SettingOK, workerGuc.value))
      ensures outcome == UnsafeIdentifier ==> passes == []
      ensures Timely(passes, old(clock) - retentionSeconds, clock - retentionSeconds)
      ensures outcome != Cancelled
      ensures outcome == Done ==>
                batch >= 1 && passes != [] && Expired(table, passes[|passes| - 1].cutoff) == {}
      ensures outcome == Stopped ==> |passes| == patience && (batch == 0 || patience <= |old(table)|)
    {
      passes, total := [], 0;
      if !PyMatches(IdentOK, name) || !PyMatches(IdentOK, column) {
        return 0, UnsafeIdentifier, [];
      }
      if workerGuc.Some? && !PyMatches(SettingOK, workerGuc.value) {
        return 0, UnsafeIdentifier, [];
      }
      var left := patience;
      while left > 0
        invariant |passes| + left == patience && (passes != [] ==> batch >= 0)
        invariant batch >= 0 ==> AllLegal(old(table), passes, batch)
        invariant table == After(old(table), passes)
        invariant total == |old(table)| - |table| && clock >= old(clock)
        invariant batch >= 1 ==> |passes| <= total
        invariant Timely(passes, old(clock) - retentionSeconds, clock - retentionSeconds)
      {
        if batch < 0 {
          return total, Failed, passes;
        }
        ghost var before, since := table, clock;
        var n, err;
        ghost var pass;
        n, err, pass := DeletePass(batch);
        RemoveCount(before, pass);
        TimelySnoc(passes, pass, old(clock) - retentionSeconds, since - retentionSeconds, clock - retentionSeconds);
        if !err || table != before {
          AllLegalSnoc(old(table), passes, pass, batch);
          passes := passes + [pass];
        }
        if err {
          return total, Failed, passes;
        }
        total, left := total + n, left - 1;
        if n < batch {
          ExhaustedPass(before, pass, batch);
          return total, Done, passes;
        }
      }
      outcome := Stopped;
    }
  }

  /** A pass that removed less than its limit removed everything expired. */
  lemma ExhaustedPass(table: Table, p: Pass, limit: nat)
    requires Legal(table, p, limit) && |p.removed| < limit
    ensures Expired(Remove(table, p), p.cutoff) == {}
  {
    var expired := Expired(table, p.cutoff);
    assert expired == p.removed + (expired - p.removed);
    assert |expired - p.removed| == 0;
  }
}
