/** The Iceberg table writer: staging ragged batches to an all-text file, committing it in
    chunks, and the guard-then-commit discipline around it. */
module Iceberg {
  import opened Collections

  type Cell = Option<string>

  type Row = seq<Cell>

  datatype Batch = Batch(columns: seq<string>, rows: seq<Row>)

  /** A staged file: its columns, its contents, and the row count reported for it. */
  datatype Staged = Staged(columns: seq<string>, file: seq<Row>, rows: nat)

  datatype Snapshot = Snapshot(ingestion: string, rows: seq<Row>)

  function CellAt(row: Row, idx: nat): Cell {
    if idx < |row| then row[idx] else None
  }

  /** A ragged row cut or padded to one cell per column. */
  function Squared(width: nat): Row -> Row {
    (row: Row) => seq(width, idx requires 0 <= idx => CellAt(row, idx))
  }

  function BatchRows(b: Batch): seq<Row> {
    b.rows
  }

  function AllRows(batches: seq<Batch>): seq<Row> {
    Flatten(Map(BatchRows, batches))
  }

  /** The rows of a record batch given column by column. Without columns there are no rows. */
  function RecordBatch(arrays: seq<seq<Cell>>): seq<Row>
    requires forall c :: 0 <= c < |arrays| ==> |arrays[c]| == |arrays[0]|
  {
    if arrays == [] then []
    else
      seq(|arrays[0]|, r requires 0 <= r < |arrays[0]| =>
        seq(|arrays|, c requires 0 <= c < |arrays| => arrays[c][r]))
  }

  /** One column of a batch, with the missing cells of short rows filled in. */
  method Column(rows: seq<Row>, idx: nat) returns (values: seq<Cell>)
    ensures |values| == |rows| && forall r :: 0 <= r < |rows| ==> values[r] == CellAt(rows[r], idx)
  {
    values := [];
    var r := 0;
    while r < |rows|
      invariant r <= |rows| && |values| == r
      invariant forall i :: 0 <= i < r ==> values[i] == CellAt(rows[i], idx)
    {
      values := values + [CellAt(rows[r], idx)];
      r := r + 1;
    }
  }

  /** A batch as column arrays, read back row by row, is the batch squared to the width. */
  method WriteBatch(rows: seq<Row>, width: nat) returns (written: seq<Row>)
    ensures written == if width == 0 then [] else Map(Squared(width), rows)
  {
    var arrays: seq<seq<Cell>> := [];
    var idx := 0;
    while idx < width
      invariant idx <= width && |arrays| == idx
      invariant forall c :: 0 <= c < idx ==> |arrays[c]| == |rows|
      invariant forall c, r :: 0 <= c < idx && 0 <= r < |rows| ==> arrays[c][r] == CellAt(rows[r], c)
    {
      var values := Column(rows, idx);
      arrays := arrays + [values];
      idx := idx + 1;
    }
    written := RecordBatch(arrays);
    if width > 0 {
      forall r | 0 <= r < |rows| ensures written[r] == Squared(width)(rows[r]) {
      }
    }
  }

  /** Staging. The columns are those of the first batch, or the summary's when no batch comes;
      every row of every batch is written, one cell per column, in order; the reported count
      is the number of rows received. If the stream raises, nothing is staged. */
  method Stage(batches: seq<Batch>, streamRaises: bool, summaryColumns: seq<string>)
    returns (staged: Option<Staged>)
    ensures streamRaises <==> staged.None?
    ensures staged.Some? ==>
              var s := staged.value;
              && s.columns == (if batches == [] then summaryColumns else batches[0].columns)
              && s.rows == |AllRows(batches)|
              && s.file == if |s.columns| == 0 then [] else Map(Squared(|s.columns|), AllRows(batches))
  {
    var columns: seq<string> := [];
    var file: seq<Row> := [];
    var rows := 0;
    var i := 0;
    while i < |batches|
      invariant i <= |batches|
      invariant columns == if i == 0 then [] else batches[0].columns
      invariant rows == |AllRows(batches[..i])|
      invariant file == if |columns| == 0 then [] else Map(Squared(|columns|), AllRows(batches[..i]))
    {
      var batch := batches[i];
      if i == 0 {
        columns := batch.columns;
      }
      var written := WriteBatch(batch.rows, |columns|);
      assert batches[..i + 1] == batches[..i] + [batch];
      AllRowsSnoc(batches[..i], batch);
      MapAppend(Squared(|columns|), AllRows(batches[..i]), batch.rows);
      file, rows := file + written, rows + |batch.rows|;
      i := i + 1;
    }
    if streamRaises {
      return None;
    }
    if batches == [] {
      columns := summaryColumns;
    }
    assert batches[..|batches|] == batches;
    staged := Some(Staged(columns, file, rows));
  }

  lemma MapAppend<A, B>(f: A -> B, s: seq<A>, t: seq<A>)
    ensures Map(f, s + t) == Map(f, s) + Map(f, t)
  {
  }

  lemma AllRowsSnoc(batches: seq<Batch>, b: Batch)
    ensures AllRows(batches + [b]) == AllRows(batches) + b.rows
  {
    assert Map(BatchRows, batches + [b]) == Map(BatchRows, batches) + [b.rows];
    FlattenSnoc(Map(BatchRows, batches), b.rows);
  }

  /** The reported count is the number of rows in the file, except that a first batch without
      columns stages nothing while its rows are still counted. */
  lemma CountIsFileSize(batches: seq<Batch>, columns: seq<string>)
    ensures var file := if |columns| == 0 then [] else Map(Squared(|columns|), AllRows(batches));
            |AllRows(batches)| == |file| <==> |columns| > 0 || AllRows(batches) == []
  {
  }

  /** What reading a staged file back in chunks promises: non-empty chunks of bounded size
      that concatenate to the file. */
  ghost predicate Chunking(file: seq<Row>, chunkRows: nat, chunks: seq<seq<Row>>) {
    && Flatten(chunks) == file
    && forall i :: 0 <= i < |chunks| ==> 1 <= |chunks[i]| <= chunkRows
  }

  function Tag(ingestion: string): seq<Row> -> Snapshot {
    (rows: seq<Row>) => Snapshot(ingestion, rows)
  }

  function SnapshotRows(s: Snapshot): seq<Row> {
    s.rows
  }

  function IsTagged(ingestion: string): Snapshot -> bool {
    (s: Snapshot) => s.ingestion == ingestion
  }

  /** The snapshots a complete commit adds: one for each chunk, or one empty one. */
  function CommitSnapshots(ingestion: string, chunks: seq<seq<Row>>): seq<Snapshot> {
    if chunks == [] then [Snapshot(ingestion, [])] else Map(Tag(ingestion), chunks)
  }

  /** Every chunk but the last is as large as allowed. */
  ghost predicate FullChunks(chunkRows: nat, chunks: seq<seq<Row>>) {
    forall i :: 0 <= i < |chunks| - 1 ==> |chunks[i]| == chunkRows
  }

  /** When a commit makes exactly one snapshot: when the file comes back in at most one chunk,
      so never for a file longer than the chunk size, and, where only the last chunk is short,
      for every other file. */
  lemma OneSnapshotExactly(file: seq<Row>, chunkRows: nat, chunks: seq<seq<Row>>, ingestion: string)
    requires Chunking(file, chunkRows, chunks)
    ensures |CommitSnapshots(ingestion, chunks)| == 1 <==> |chunks| <= 1
    ensures |file| > chunkRows ==> |CommitSnapshots(ingestion, chunks)| > 1
    ensures FullChunks(chunkRows, chunks) ==> (|CommitSnapshots(ingestion, chunks)| == 1 <==> |file| <= chunkRows)
  {
    if |chunks| == 1 {
      FlattenSnoc([], chunks[0]);
      assert chunks == [] + [chunks[0]];
    } else if |chunks| > 1 {
      var n := |chunks| - 1;
      FirstChunkWithin(chunks[..n]);
      FrontLast(chunks);
      FlattenSnoc(chunks[..n], chunks[n]);
    }
  }

  lemma {:induction false} FirstChunkWithin<A>(chunks: seq<seq<A>>)
    requires chunks != []
    ensures |Flatten(chunks)| >= |chunks[0]|
  {
    var n := |chunks| - 1;
    FrontLast(chunks);
    FlattenSnoc(chunks[..n], chunks[n]);
    if n > 0 {
      FirstChunkWithin(chunks[..n]);
    }
  }

  /** The rows an ingestion has put in a table. */
  function TaggedRows(table: seq<Snapshot>, ingestion: string): seq<Row> {
    Flatten(Map(SnapshotRows, Filter(IsTagged(ingestion), table)))
  }

  /** Some snapshot carries the ingestion id. */
  method HasSnapshot(table: seq<Snapshot>, ingestion: string) returns (found: bool)
    ensures found <==> Filter(IsTagged(ingestion), table) != []
  {
    var i := 0;
    while i < |table|
      invariant i <= |table|
      invariant Filter(IsTagged(ingestion), table[..i]) == []
    {
      assert table[..i + 1] == table[..i] + [table[i]];
      FilterSnoc(IsTagged(ingestion), table[..i], table[i]);
      if table[i].ingestion == ingestion {
        assert table[i] in table;
        assert table[i] in Filter(IsTagged(ingestion), table);
        return true;
      }
      i := i + 1;
    }
    assert table[..|table|] == table;
    found := false;
  }

  lemma {:induction false} TaggedChunks(ingestion: string, chunks: seq<seq<Row>>)
    ensures Filter(IsTagged(ingestion), Map(Tag(ingestion), chunks)) == Map(Tag(ingestion), chunks)
    ensures Map(SnapshotRows, Map(Tag(ingestion), chunks)) == chunks
  {
    var s := Map(Tag(ingestion), chunks);
    forall x | x in s ensures IsTagged(ingestion)(x) {
      var i :| 0 <= i < |s| && s[i] == x;
    }
    FilterAll(IsTagged(ingestion), s);
  }

  lemma TaggedRowsConcat(table: seq<Snapshot>, more: seq<Snapshot>, ingestion: string)
    ensures TaggedRows(table + more, ingestion) == TaggedRows(table, ingestion) + TaggedRows(more, ingestion)
  {
    var f, g := Filter(IsTagged(ingestion), table), Filter(IsTagged(ingestion), more);
    FilterAppend(IsTagged(ingestion), table, more);
    assert Map(SnapshotRows, f + g) == Map(SnapshotRows, f) + Map(SnapshotRows, g);
    FlattenAppend(Map(SnapshotRows, f), Map(SnapshotRows, g));
  }

  lemma TaggedRowsAppend(table: seq<Snapshot>, ingestion: string, chunks: seq<seq<Row>>)
    ensures TaggedRows(table + Map(Tag(ingestion), chunks), ingestion) == TaggedRows(table, ingestion) + Flatten(chunks)
  {
    TaggedChunks(ingestion, chunks);
    TaggedRowsConcat(table, Map(Tag(ingestion), chunks), ingestion);
  }

  /** A table and the writer over it. A failed append may have landed. */
  class TableWriter {
    const commitChunkRows: nat
    var table: seq<Snapshot>

    constructor (commitChunkRows: nat)
      ensures this.commitChunkRows == commitChunkRows && table == []
    {
      this.commitChunkRows := commitChunkRows;
      table := [];
    }

    method Append(snapshot: Snapshot) returns (raised: bool)
      modifies `table
      ensures table == old(table) + [snapshot] || (raised && table == old(table))
    {
      raised := *;
      var landed: bool := *;
      if !raised || landed {
        table := table + [snapshot];
      }
    }

    /** Commit: one snapshot a chunk, in order, all tagged; an empty file still leaves one. A
        normal return has added exactly the staged rows; an exception leaves the snapshots of
        the first done chunks behind, up to all of them. */
    method Commit(ingestion: string, staged: Staged, chunks: seq<seq<Row>>) returns (raised: bool, ghost done: nat)
      requires Chunking(staged.file, commitChunkRows, chunks)
      modifies `table
      ensures done <= |CommitSnapshots(ingestion, chunks)|
      ensures table == old(table) + CommitSnapshots(ingestion, chunks)[..done]
      ensures !raised ==>
                && table == old(table) + CommitSnapshots(ingestion, chunks)
                && TaggedRows(table, ingestion) == TaggedRows(old(table), ingestion) + staged.file
                && Filter(IsTagged(ingestion), table) != []
    {
      ghost var all := CommitSnapshots(ingestion, chunks);
      done := 0;
      var appended := false;
      var i := 0;
      while i < |chunks|
        invariant i <= |chunks| && done == i && (appended <==> i > 0)
        invariant table == old(table) + all[..done]
      {
        ghost var before := table;
        raised := Append(Snapshot(ingestion, chunks[i]));
        assert all[i] == Snapshot(ingestion, chunks[i]);
        if table != before {
          done := done + 1;
        }
        if raised {
          return;
        }
        appended := true;
        i := i + 1;
      }
      raised := false;
      if !appended {
        ghost var before := table;
        raised := Append(Snapshot(ingestion, []));
        assert chunks == [] && all == [Snapshot(ingestion, [])];
        if table != before {
          done := 1;
        }
        if raised {
          return;
        }
      }
      assert all[..|all|] == all;
      CommitAdds(old(table), ingestion, chunks);
      raised := *;  // reading the new snapshot back may fail with everything landed
    }
  }

  lemma CommitAdds(table: seq<Snapshot>, ingestion: string, chunks: seq<seq<Row>>)
    ensures var after := table + CommitSnapshots(ingestion, chunks);
            && TaggedRows(after, ingestion) == TaggedRows(table, ingestion) + Flatten(chunks)
            && Filter(IsTagged(ingestion), after) != []
  {
    var after := table + CommitSnapshots(ingestion, chunks);
    if chunks == [] {
      var one: seq<seq<Row>> := [[]];
      assert CommitSnapshots(ingestion, chunks) == Map(Tag(ingestion), one);
      TaggedRowsAppend(table, ingestion, one);
      FlattenSnoc<Row>(chunks, []);
      assert chunks + one == one;
    } else {
      TaggedRowsAppend(table, ingestion, chunks);
    }
    var s := CommitSnapshots(ingestion, chunks)[0];
    assert s in after && IsTagged(ingestion)(s);
    assert s in Filter(IsTagged(ingestion), after);
  }
}

/** Guard, then commit: an ingestion that crashes and is retried, each attempt first asking
    whether any snapshot already carries its id. Other ingestions append meanwhile. */
module GuardedIngestion {
  import opened Collections
  import opened Machine
  import opened Iceberg

  datatype Phase =
    | Resting                                         // no attempt is running
    | Committing(snapshots: seq<Snapshot>, next: nat) // an attempt past its guard

  /** winner: the snapshots of the attempt that landed first. */
  datatype State = State(
    ingestion: string,
    table: seq<Snapshot>,
    winner: Option<seq<Snapshot>>,
    completed: bool,          // some commit returned
    phase: Phase)

  datatype Step =
    | Foreign(snapshot: Snapshot)                     // another ingestion appends
    | Attempt(chunks: seq<seq<Row>>)                  // stage, guard, and start to commit
    | Append(ok: bool, landed: bool)
    | Return
    | Crash

  function Mine(s: State): seq<Snapshot> {
    Filter(IsTagged(s.ingestion), s.table)
  }

  function Next(s: State, a: Step): Option<State> {
    match a
    case Foreign(snapshot) =>
      if snapshot.ingestion == s.ingestion then None else Some(s.(table := s.table + [snapshot]))
    case Attempt(chunks) =>
      if !s.phase.Resting? then None
      else if Mine(s) != [] then Some(s)
      else Some(s.(phase := Committing(CommitSnapshots(s.ingestion, chunks), 0)))
    case Append(ok, landed) =>
      if !(s.phase.Committing? && s.phase.next < |s.phase.snapshots| && (ok ==> landed)) then None
      else
        Some(s.(table := if landed then s.table + [s.phase.snapshots[s.phase.next]] else s.table,
                winner := if landed then Some(s.phase.snapshots) else s.winner,
                phase := if ok then s.phase.(next := s.phase.next + 1) else Resting))
    case Return =>
      if !(s.phase.Committing? && s.phase.next == |s.phase.snapshots|) then None
      else Some(s.(completed := true, phase := Resting))
    case Crash => Some(s.(phase := Resting))
  }

  ghost predicate Init(s: State) {
    s == State(s.ingestion, s.table, None, false, Resting) && Mine(s) == []
  }

  ghost predicate AllMine(ingestion: string, snapshots: seq<Snapshot>) {
    forall x :: x in snapshots ==> IsTagged(ingestion)(x)
  }

  /** The ingestion's snapshots are the first ones of a single attempt. */
  ghost predicate Inv(s: State) {
    && (s.winner.None? ==> Mine(s) == [])
    && (s.winner.Some? ==> Mine(s) != [] && Mine(s) <= s.winner.value)
    && (s.completed ==> s.winner.Some? && Mine(s) == s.winner.value)
    && (s.phase.Committing? ==>
          && s.phase.snapshots != [] && s.phase.next <= |s.phase.snapshots|
          && AllMine(s.ingestion, s.phase.snapshots)
          && Mine(s) == s.phase.snapshots[..s.phase.next]
          && (s.phase.next > 0 ==> s.winner == Some(s.phase.snapshots)))
  }

  lemma CommitSnapshotsMine(ingestion: string, chunks: seq<seq<Row>>)
    ensures CommitSnapshots(ingestion, chunks) != [] && AllMine(ingestion, CommitSnapshots(ingestion, chunks))
  {
    TaggedChunks(ingestion, chunks);
  }

  lemma AppendKeeps(s: State, ok: bool, landed: bool)
    requires Inv(s) && Next(s, Append(ok, landed)).Some?
    ensures Inv(Next(s, Append(ok, landed)).value)
  {
    var t := Next(s, Append(ok, landed)).value;
    if landed {
      var x := s.phase.snapshots[s.phase.next];
      assert x in s.phase.snapshots;
      FilterSnoc(IsTagged(s.ingestion), s.table, x);
      assert s.phase.snapshots[..s.phase.next + 1] == s.phase.snapshots[..s.phase.next] + [x];
      assert Mine(t) == Mine(s) + [x];
    }
  }

  lemma StepKeeps(s: State, a: Step)
    requires Inv(s) && Next(s, a).Some?
    ensures Inv(Next(s, a).value)
  {
    match a
    case Foreign(snapshot) => FilterSnoc(IsTagged(s.ingestion), s.table, snapshot);
    case Attempt(chunks) => CommitSnapshotsMine(s.ingestion, chunks);
    case Append(ok, landed) => AppendKeeps(s, ok, landed);
    case Return => assert s.phase.snapshots[..s.phase.next] == s.phase.snapshots;
    case Crash =>
  }

  lemma AlwaysInv(s0: State, trace: seq<Step>, s: State)
    requires Init(s0) && Run(Next, s0, trace) == Some(s)
    ensures Inv(s)
  {
    forall t, a | Inv(t) && Next(t, a).Some? ensures Inv(Next(t, a).value) {
      StepKeeps(t, a);
    }
    RunInvariant(Next, Inv, s0, trace);
  }

  /** Over every run of crashes and retries the ingestion's rows in the table are a prefix,
      without duplicates, of the rows of one single attempt; once a commit has returned they
      are all of them, and at least one snapshot carries the id. */
  lemma NoDuplicatesAndPrefix(s0: State, trace: seq<Step>, s: State)
    requires Init(s0) && Run(Next, s0, trace) == Some(s)
    ensures s.winner.None? ==> TaggedRows(s.table, s.ingestion) == []
    ensures s.winner.Some? ==> TaggedRows(s.table, s.ingestion) <= Flatten(Map(SnapshotRows, s.winner.value))
    ensures s.completed ==> s.winner.Some? && Mine(s) != []
                            && TaggedRows(s.table, s.ingestion) == Flatten(Map(SnapshotRows, s.winner.value))
  {
    AlwaysInv(s0, trace, s);
    if s.winner.Some? {
      assert Map(SnapshotRows, Mine(s)) <= Map(SnapshotRows, s.winner.value);
      FlattenPrefix(Map(SnapshotRows, Mine(s)), Map(SnapshotRows, s.winner.value));
    }
  }

  /** The guard stops duplicates but does not promise completeness: once an attempt has died
      after some but not all of its snapshots, every later attempt is turned away and the
      table keeps that strict prefix for good. */
  lemma PartialIsForEver(s: State, trace: seq<Step>, t: State)
    requires Inv(s) && s.phase.Resting? && s.winner.Some? && Mine(s) != s.winner.value
    requires Run(Next, s, trace) == Some(t)
    ensures Mine(t) == Mine(s) && t.winner == s.winner && !t.completed && t.phase.Resting?
  {
    var stuck := (u: State) => u.ingestion == s.ingestion && Mine(u) == Mine(s) && u.winner == s.winner
                               && !u.completed && u.phase.Resting?;
    forall u, a | stuck(u) && Next(u, a).Some? ensures stuck(Next(u, a).value) {
      if a.Foreign? {
        FilterSnoc(IsTagged(u.ingestion), u.table, a.snapshot);
      }
    }
    RunInvariant(Next, stuck, s, trace);
  }

  /** Runs whose attempts stage only chunk lists that are allowed. */
  ghost function Staging(allowed: seq<seq<Row>> -> bool): (State, Step) -> Option<State> {
    (s: State, a: Step) => if a.Attempt? && !allowed(a.chunks) then None else Next(s, a)
  }

  /** The guard's answer is complete: at rest, an ingestion with any snapshot has them all. */
  ghost predicate GuardIsComplete(s: State) {
    s.phase.Resting? && Mine(s) != [] ==> s.winner.Some? && Mine(s) == s.winner.value
  }

  ghost predicate GuardAlwaysComplete(s0: State, allowed: seq<seq<Row>> -> bool) {
    forall trace, s :: Run(Staging(allowed), s0, trace) == Some(s) ==> GuardIsComplete(s)
  }

  ghost predicate SingleSnapshots(s: State) {
    && Inv(s)
    && (s.winner.Some? ==> |s.winner.value| == 1)
    && (s.phase.Committing? ==> |s.phase.snapshots| == 1)
  }

  /** Exactly when the guard can be trusted to mean completeness: when every attempt stages a
      file that fits in one chunk. Then it holds in every run; if some attempt may stage more
      chunks, some run breaks it. */
  lemma GuardIsCompleteIffOneChunk(s0: State, allowed: seq<seq<Row>> -> bool)
    requires Init(s0)
    ensures GuardAlwaysComplete(s0, allowed) <==> forall chunks :: allowed(chunks) ==> |chunks| <= 1
  {
    if forall chunks :: allowed(chunks) ==> |chunks| <= 1 {
      forall trace, s | Run(Staging(allowed), s0, trace) == Some(s) ensures GuardIsComplete(s) {
        OneChunkCompletes(s0, allowed, trace, s);
      }
    }
    forall chunks | allowed(chunks) && |chunks| > 1 ensures !GuardAlwaysComplete(s0, allowed) {
      var trace, s := DiesAfterFirst(s0, allowed, chunks);
    }
  }

  lemma OneChunkCompletes(s0: State, allowed: seq<seq<Row>> -> bool, trace: seq<Step>, s: State)
    requires Init(s0) && Run(Staging(allowed), s0, trace) == Some(s)
    requires forall chunks :: allowed(chunks) ==> |chunks| <= 1
    ensures GuardIsComplete(s)
  {
    var next := Staging(allowed);
    forall t, a | SingleSnapshots(t) && next(t, a).Some? ensures SingleSnapshots(next(t, a).value) {
      StepKeeps(t, a);
    }
    RunInvariant(next, SingleSnapshots, s0, trace);
    if s.winner.Some? && Mine(s) != [] {
      assert |Mine(s)| == 1 && Mine(s) == s.winner.value[..1];
    }
  }

  lemma DiesAfterFirst(s0: State, allowed: seq<seq<Row>> -> bool, chunks: seq<seq<Row>>)
      returns (trace: seq<Step>, s: State)
    requires Init(s0) && allowed(chunks) && |chunks| > 1
    ensures Run(Staging(allowed), s0, trace) == Some(s) && !GuardIsComplete(s)
  {
    var all := CommitSnapshots(s0.ingestion, chunks);
    var s1 := s0.(phase := Committing(all, 0));
    var s2 := s0.(table := s0.table + [all[0]], winner := Some(all), phase := Committing(all, 1));
    s := s2.(phase := Resting);
    Took(Staging(allowed), s0, [], s0, Attempt(chunks), s1);
    var t1: seq<Step> := [] + [Attempt(chunks)];
    FirstAppend(s1, all);
    Took(Staging(allowed), s0, t1, s1, Append(true, true), s2);
    var t2 := t1 + [Append(true, true)];
    assert Next(s2, Crash) == Some(s);
    Took(Staging(allowed), s0, t2, s2, Crash, s);
    trace := t2 + [Crash];
    FirstOnly(s0, chunks, s);
  }

  lemma FirstAppend(s: State, all: seq<Snapshot>)
    requires |all| > 0 && s.phase == Committing(all, 0)
    ensures Next(s, Append(true, true)) ==
            Some(s.(table := s.table + [all[0]], winner := Some(all), phase := Committing(all, 1)))
  {
  }

  lemma FirstOnly(s0: State, chunks: seq<seq<Row>>, s: State)
    requires Mine(s0) == [] && |chunks| > 1 && s.ingestion == s0.ingestion && s.phase.Resting?
    requires var all := CommitSnapshots(s0.ingestion, chunks); s.table == s0.table + [all[0]] && s.winner == Some(all)
    ensures !GuardIsComplete(s)
  {
    var all := CommitSnapshots(s0.ingestion, chunks);
    CommitSnapshotsMine(s0.ingestion, chunks);
    assert all[0] in all;
    FilterSnoc(IsTagged(s0.ingestion), s0.table, all[0]);
  }

  /** Such a state is reached by crashing after the first of two chunks. */
  lemma PartialReachable(ingestion: string, a: seq<Row>, b: seq<Row>) returns (s0: State, trace: seq<Step>, s: State)
    ensures Init(s0) && Run(Next, s0, trace) == Some(s)
    ensures s.phase.Resting? && s.winner.Some? && Mine(s) != s.winner.value
    ensures TaggedRows(s.table, ingestion) == a && Flatten(Map(SnapshotRows, s.winner.value)) == a + b
  {
    s0 := State(ingestion, [], None, false, Resting);
    var both := [Snapshot(ingestion, a), Snapshot(ingestion, b)];
    assert CommitSnapshots(ingestion, [a, b]) == both;
    var s1 := s0.(phase := Committing(both, 0));
    var s2 := s1.(table := [both[0]], winner := Some(both), phase := Committing(both, 1));
    s := s2.(phase := Resting);
    assert s1.table + [both[0]] == [both[0]];
    Took(Next, s0, [], s0, Attempt([a, b]), s1);
    var t1: seq<Step> := [] + [Attempt([a, b])];
    Took(Next, s0, t1, s1, Append(true, true), s2);
    var t2 := t1 + [Append(true, true)];
    Took(Next, s0, t2, s2, Crash, s);
    trace := t2 + [Crash];
    PartialRows(ingestion, a, b);
  }

  lemma PartialRows(ingestion: string, a: seq<Row>, b: seq<Row>)
    ensures var x, y := Snapshot(ingestion, a), Snapshot(ingestion, b);
            && Filter(IsTagged(ingestion), [x]) == [x]
            && TaggedRows([x], ingestion) == a
            && Flatten(Map(SnapshotRows, [x, y])) == a + b
  {
    var x, y := Snapshot(ingestion, a), Snapshot(ingestion, b);
    FilterAll(IsTagged(ingestion), [x]);
    TwoRows(x, y);
  }

  lemma TwoRows(x: Snapshot, y: Snapshot)
    ensures Flatten(Map(SnapshotRows, [x])) == x.rows && Flatten(Map(SnapshotRows, [x, y])) == x.rows + y.rows
  {
    var one := Map(SnapshotRows, [x]);
    assert one == [] + [x.rows];
    FlattenSnoc([], x.rows);
    assert Map(SnapshotRows, [x, y]) == one + [y.rows];
    FlattenSnoc(one, y.rows);
  }
}
