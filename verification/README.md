# Verified model of the platform's shared libraries

This project models the platform's event-delivery protocol and the shared library code
around it, in Dafny, and proves what the code is for. Each module follows one source file
or one protocol; code that changes state step by step appears as classes and methods with
loops, and the protocols appear as transition systems (`Next`, with labels that carry every
choice of the environment) whose runs the methods are proved to be.

`dafny verify dfyconfig.toml` checks everything.

## What is modelled

**Event delivery.** Rows are written to a transactional outbox, relayed to a topic, consumed
by a group with deduplication, retries and a dead-letter queue (DLQ), and pruned when old.

- `Relay` is the Go relay: fetch the oldest unpublished rows, publish until the first
  failure, mark what was published. A failed publish or mark may have landed, and the
  process may die anywhere.
- `RelayWorkers` is the Python relay: any number of workers, each pass one transaction over
  the oldest rows it could lock FOR UPDATE SKIP LOCKED. `RelayOrder` says when it keeps order.
- `PyConsumer` is the Python runner (handle, then mark, then commit); `GoConsumer` is the Go
  group member (claim, then handle, then commit, with the claim released on failure).
  `ConsumerGroups` puts many Go groups over one Redis.
- `Pruning` is the retention sweep in both languages, alone and beside the relay.
- `Pipeline` composes relay, partition and Python consumer and states the end-to-end result.

**Library code.** `Uuids`, `Base64Url`, `Pagination` and `PageWalk` cover keyset pagination:
both cursor codecs down to characters and a client walking a changing collection. `Iceberg`
and `GuardedIngestion` cover staged, chunked commits and retries behind the snapshot guard.
`Multipart` is the streaming upload. `Projections` holds both permission projection loaders.
`PackContent`, `PackLint`, `PackInstall` and `PackShapes` cover linting and installing packs. `Vault` is
the secret store with its scheduled-destroy queue. `Collections`, `Machine`, `Keys`, `Events`
and `Utf8` are shared vocabulary.

## What the proofs found

Where the code and its documentation disagree, the model follows the code, and a theorem says
exactly when the promise is kept.

- `libs/go-common/kafka/consumer.go:165-168` says a claim is kept only when the handler
  succeeds. A hard crash between claim and success, or a release that fails, keeps it too.
  `GoConsumer.LostExactlyWhenAbandoned`: while Redis answers a key's claims, a committed record
  off the DLQ carries an event that was never handled if and only if some attempt abandoned
  its key in one of these two ways. Cancellation alone abandons nothing, so then every
  committed event off the DLQ is handled by one successful call and one only
  (`GoConsumer.HandledExactlyOnce`). Without a deduper nothing is abandoned even by a crash
  (`GoConsumer.WithoutDedupLosesNothing`). The Go theorems identify events by their event id; an
  envelope without one decodes to the nil UUID, so all such envelopes count as one event, just
  as `Pipeline.FreshIds` asks for an id in every row.
- The Go member's successes are in log order in every run in which no commit is lost
  (`GoConsumer.SuccessesInLogOrder`), and a lost commit can break the order even when each event
  succeeds once: an earlier event, quarantined and released, is claimed afresh by the next
  session behind a later one (`GoConsumer.OrderNeedsCommits`).
- The Python dedup key `dedup:<tenant>:<event id>` can be the same for two tenants if and only
  if one of them is the other with a colon and more behind it (`PyConsumer.TenantsCollide`);
  then a run without any failure can lose an event (`PyConsumer.CollidingTenantsLoseEvent`).
- `libs/py-common/datacern_common/outbox.py:7-8` promises workers "without
  double-publishing". A published row has exactly one record on the broker if and only if no
  pass that sent it has rolled back (`RelayWorkers.WorkersSafe`); one crash after the send is
  enough to make it two (`RelayWorkers.CrashSendsTwice`).
- The same relay keeps the order of its order column in every run if and only if passes do not
  overlap and rows are not inserted behind older ones (`RelayOrder.OrderKeptExactly`).
- Four kinds of record make the Python runner raise before it dispatches them, and stop instead
  of sending them to the DLQ: one without a value, which neither the JSON reader nor the DLQ copy
  can decode; one with a header that is not UTF-8; a JSON value that is not an object; and an
  envelope whose dedup key holds half of a surrogate pair, which Redis commands cannot carry. The
  committed offset never passes such a record. A fifth kind raises once its retries are exhausted:
  an envelope whose tenant id is no text, such as 7, which the producer cannot encode as the key
  of the DLQ copy. It never reaches the DLQ, and the offset passes it only after its effect
  (`PyConsumer.StutteringDelivery`, last clauses). Nothing else but a failing remote call ends the
  loop (`PyConsumer.KafkaConsumer.RunLoop`).
- `services/ingestion-service/app/domain/tablewriter.py:188` and
  `services/ingestion-service/app/domain/services/runner.py:487` say "exactly one snapshot". The
  writer makes one per chunk, so it is one exactly when the file comes back in at most one chunk
  (`Iceberg.OneSnapshotExactly`). The guard is satisfied by the first snapshot; it means
  completeness in every run if and only if every attempt stages at most one chunk
  (`GuardedIngestion.GuardIsCompleteIffOneChunk`). Otherwise an ingestion that dies between
  chunks stays partial for good (`GuardedIngestion.PartialIsForEver`).
- A first batch without columns stages no rows but still counts them
  (`Iceberg.CountIsFileSize`).
- The two projection loaders return the same if and only if no found flag rests on a bare
  `null`, no live grant has a `null` level (Python makes it the text "None"), and no live entry
  has an object where its list of actions should be (Python takes the keys, Go drops the entry)
  (`Projections.LoadersAgree`).
- A colon-free workspace's key is another key's string too if and only if the workspace is
  called `flags` or `actions` (`Projections.WorkspaceClashes`), and then each loader reads one for
  the other (`Projections.ClashingWorkspaceIsRead`). Every other key parses back uniquely,
  whatever colons subjects contain (`Projections.RenderInjective`).
- `lint_pack` compares dataset references as text, the installer as values, so a numeric
  identity passes the linter for a textual reference that the installer cannot resolve
  (`PackLint.NumberIsNotItsText`). With string references the linter is sound
  (`PackLint.LintIsSound`, `PackInstall.Installer.Install`).
- A component can pass the linter and still make the installer raise, such as a single pipeline
  written as a mapping (`PackShapes.LintCleanPackCrashes`). `PackShapes.LintCleanShapes` lists
  exactly which: besides bare mappings and empty files where a list is needed, unhashable dataset
  references, a `file` that is not a string, semantic models without a usable definition,
  dashboards that `dict()` does not take or whose charts and sources are no mappings, and saved
  queries or listed decision models without an identity. A component that fits gives the installer
  no reason to raise, and one that does not makes it raise
  (`PackInstall.Installer.InstallComponent`), with two exceptions: a saved query whose identity
  cannot be hashed raises only once the platform has given the query an id, and a two-field
  mapping that `dict()` reads as a pair raises for one order of its fields if one is `charts`.
- Two Vault targets share a queue entry if and only if mount and path join to the same text
  (`Vault.QueueLocCollides`), and exactly then one schedule displaces the other
  (`Vault.ScheduleDisplaces`). Colon-free mounts rule it out.
- The Python sweep ends by itself only with a batch size of at least one
  (`Pruning.Sweeper.PruneTable`), where the Go sweep falls back to 1000. Its name check also accepts
  an identifier with one line break behind it, which Go's does not, and nothing more
  (`Pruning.PyMatchesMore`).

## Model

| member | source | states |
|---|---|---|
| Relay.RelayService.FetchUnpublished | libs/go-common/outbox/relay.go:22-27 | A fetch that does not fail gives rows in id order, present and unpublished, at most the limit, and leaves one out only for want of room and only one younger than all given. |
| Relay.RelayService.PublishRows | libs/go-common/outbox/relay.go:85-92 | The publish loop is a run of the protocol: rows go out in order, the first failure ends it, at most one more message than reported is on the topic. |
| Relay.RelayService.ProcessOnce | libs/go-common/outbox/relay.go:76-99 | One pass is a run of the protocol; the n oldest unpublished rows are on the topic in order and, unless it errs, exactly they become published. |
| Relay.StepKeeps | libs/go-common/outbox/relay.go:56-99 | Every step keeps: published rows are 0..m, first occurrences on the topic are 0..p in order with m at most p, and the pass in progress stands between them. |
| Relay.RelaySafety | libs/go-common/outbox/relay.go:76-99 | Over every run: marked rows are on the topic and form a prefix of the outbox, first occurrences on the topic form a prefix of the outbox, and so per tenant; unmarked rows stay fetchable. |
| RelayWorkers.OutboxRelay.Rollback | libs/py-common/datacern_common/outbox.py:59-83 | A rolled-back transaction drops its locks and marks nothing; its sends stay on the broker. |
| RelayWorkers.OutboxRelay.SendOne | libs/py-common/datacern_common/outbox.py:66-73 | One send is a protocol step; a row without a topic or a failed send rolls the pass back. |
| RelayWorkers.OutboxRelay.CommitPass | libs/py-common/datacern_common/outbox.py:74-83 | Marking and committing is a protocol step that releases the locks and marks exactly the locked rows, or nothing. |
| RelayWorkers.OutboxRelay.RelayOnce | libs/py-common/datacern_common/outbox.py:48-83 | A pass over the oldest unlocked unpublished rows, at most the batch size, is a run of the protocol, drops its locks in every case, and on a normal return has sent them in order and marked exactly them. |
| RelayWorkers.SettleKeeps | libs/py-common/datacern_common/outbox.py:64-83 | Ending a pass moves exactly its sends out of the in-flight count, because no other worker holds its rows. |
| RelayWorkers.WorkersSafe | libs/py-common/datacern_common/outbox.py:48-83 | Over every interleaving of workers: live workers hold disjoint rows, each row is marked at most once, a row's sends equal its marks plus rolled-back plus in-flight sends, and a published row was sent once if and only if no pass that sent it rolled back. |
| RelayWorkers.MarkedOrInFlight | libs/py-common/datacern_common/outbox.py:53-58 | A marked row is never in flight again. |
| RelayWorkers.AbortedRowsEligible | libs/py-common/datacern_common/outbox.py:59-83 | Every way a pass can abort leaves all of its rows eligible for the next pass. |
| RelayWorkers.WorkersReorder | libs/py-common/datacern_common/outbox.py:53-58 | Two overlapping passes without a failure put any table's two oldest rows on the broker against the order column. |
| RelayWorkers.CrashSendsTwice | libs/py-common/datacern_common/outbox.py:66-82 | A pass that dies after its send leaves its row to be sent again: two records, one mark. |
| RelayOrder.SendKeepsOrder | libs/py-common/datacern_common/outbox.py:53-73 | The next send of a lone pass never goes behind an older row that was not sent before. |
| RelayOrder.SequentialKeepsOrder | libs/py-common/datacern_common/outbox.py:48-83 | One pass at a time over rows inserted in order: first occurrences on the broker follow the order column in every run, whatever fails or is sent again. |
| RelayOrder.OrderKeptExactly | libs/py-common/datacern_common/outbox.py:48-83 | The order column is kept in every run if and only if passes do not overlap and rows are not inserted behind older ones. |
| Pruning.SweepRemovesOnlyExpired | libs/go-common/outbox/pruner.go:108-113 | A sweep removes only rows with a timestamp before the cutoff of their own pass and changes nothing else. |
| Pruning.SweepIsRelayRun | libs/go-common/outbox/pruner.go:91-144 | A sweep of the outbox is a run of the relay's protocol at any point of a relay pass: unpublished rows survive and the relay's invariant holds after it. |
| Pruning.Sweeper.DeletePass | libs/go-common/outbox/pruner.go:116-130 | One transaction deletes a full batch of expired rows, or all of them if fewer; a failed one may have landed. |
| Pruning.Sweeper.PruneOnce | libs/go-common/outbox/pruner.go:94-144 | Ends, returns the number of rows removed, takes every cutoff from the clock, leaves nothing older than the last cutoff on a normal end, and refuses exactly unsafe names. |
| Pruning.Sweeper.PruneTable | libs/py-common/datacern_common/retention.py:63-113 | The same for the Python sweep, with its own name patterns and no cancellation: it ends by itself only with a batch size of at least one, and then within one pass more than there are rows; a negative one is an error. |
| Pruning.PyMatchesMore | libs/py-common/datacern_common/retention.py:41 | The Python name check accepts exactly the identifiers Go accepts and those with one line break behind them. |
| Pruning.ExhaustedPass | libs/go-common/outbox/pruner.go:134-137 | A pass below the batch size has removed everything expired. |
| PyConsumer.KafkaConsumer.MarkProcessed | libs/py-common/datacern_common/redisx.py:37-38 | The mark is set; a call that raised may have set it. |
| PyConsumer.KafkaConsumer.CheckDedup | libs/py-common/datacern_common/kafka.py:231-233 | The dedup check is a step of the protocol: a marked record is disposed of, an unmarked one goes to the handler, and a check that raises ends the run. |
| PyConsumer.KafkaConsumer.HandleWithRetries | libs/py-common/datacern_common/kafka.py:235-253 | At most maxRetries + 1 handler calls, then the DLQ; a normal return leaves the effect or the quarantine behind. |
| PyConsumer.KafkaConsumer.Attempt | libs/py-common/datacern_common/kafka.py:237-242 | One handler call with its mark is a run of the protocol, and a failure of either counts as a failed attempt. |
| PyConsumer.KafkaConsumer.Exhausted | libs/py-common/datacern_common/kafka.py:244-261 | Exhausted retries dead-letter the record first and mark it after; a copy whose key the producer cannot encode raises and leaves the DLQ as it was. |
| PyConsumer.KafkaConsumer.ProcessEnvelope | libs/py-common/datacern_common/kafka.py:228-253 | Dedup check, then the retries; a normal return has counted one outcome and left the evidence for it; it raises only through a remote call or, with the retries exhausted, for a tenant id that is no record key. |
| PyConsumer.KafkaConsumer.HandleMessage | libs/py-common/datacern_common/kafka.py:210-226 | Undecodable records go to the DLQ, records without a value, with an unreadable header, without an object or with an unsendable dedup key raise, envelopes are processed; each is a run of the protocol. |
| PyConsumer.KafkaConsumer.CommitStep | libs/py-common/datacern_common/kafka.py:203-206 | Committing moves the offset by one record, after that record was disposed of. |
| PyConsumer.KafkaConsumer.RunLoop | libs/py-common/datacern_common/kafka.py:201-208 | The loop is a run of the protocol, commits one record at a time, counts one disposal per commit, and stops only at the end, at a record that raises before dispatch, at an exhausted one that cannot be keyed for the DLQ, or at a remote fault. |
| PyConsumer.StepKeeps | libs/py-common/datacern_common/kafka.py:201-253 | Every step keeps: each mark stands for an effect or quarantine of the key's first record, and everything below the committed offset is settled. |
| PyConsumer.StutteringDelivery | libs/py-common/datacern_common/kafka.py:201-253 | Under crashes anywhere: effects, with repetitions in place collapsed, select the log's first occurrences in order, none lies beyond the committed offset, and below it none is missing unless quarantined; what cannot be sent is never on the DLQ, and what raises is never committed. |
| PyConsumer.ExactlyOnceEffect | libs/py-common/datacern_common/redisx.py:20-24 | An idempotent handler ends in the state of seeing each selected first occurrence once. |
| PyConsumer.FreshHandled | libs/py-common/datacern_common/kafka.py:236-242 | An unmarked record, when nothing fails, has its effect, then its mark, then its commit. |
| PyConsumer.CollisionLosesEvent | libs/py-common/datacern_common/redisx.py:30-32 | For any two events that share a key, a failure-free run commits both and gives the second no effect and no quarantine. |
| PyConsumer.TenantsCollide | libs/py-common/datacern_common/redisx.py:30-32 | Two tenants can share a dedup key if and only if one is the other with a colon and more behind it. |
| PyConsumer.CollidingTenantsLoseEvent | libs/py-common/datacern_common/redisx.py:30-32 | Every pair of tenants that can collide has two events of which a failure-free run loses one. |
| GoConsumer.KeyInjective | libs/go-common/kafka/consumer.go:177-184 | No two (group, event id) pairs share a dedup key, whatever characters group names contain. |
| GoConsumer.ConsumerGroup.constructor | libs/go-common/kafka/consumer.go:71-74 | A retry limit that is not positive becomes 5. |
| GoConsumer.ConsumerGroup.SetNX | libs/go-common/kafka/consumer.go:185-190 | The claim is taken if it was free; a call that failed may have taken it. |
| GoConsumer.ConsumerGroup.ReleaseDedup | libs/go-common/kafka/consumer.go:223-235 | Only the failed event's claim can be dropped, only by a deduper that can delete, and errors are ignored. |
| GoConsumer.ConsumerGroup.ToDLQ | libs/go-common/kafka/consumer.go:250-280 | Returns without error only with the record on the DLQ, and with an error only once cancelled. |
| GoConsumer.ConsumerGroup.Pause | libs/go-common/kafka/consumer.go:200-206 | Between attempts either the timer fires with the claim kept, or cancellation releases it. |
| GoConsumer.ConsumerGroup.Attempts | libs/go-common/kafka/consumer.go:191-210 | The retry loop ends in one success with the claim kept, in cancellation, or exhausted with the release done. |
| GoConsumer.ConsumerGroup.Process | libs/go-common/kafka/consumer.go:165-212 | It errs only once cancelled; otherwise the record was handled, is on the DLQ, or was a duplicate of a held claim. |
| GoConsumer.ConsumerGroup.CommitMessage | libs/go-common/kafka/consumer.go:133-135 | A failed commit is only logged and the reader moves on. |
| GoConsumer.ConsumerGroup.RunLoop | libs/go-common/kafka/consumer.go:106-137 | The loop is a run of the protocol, never fetches past a record that was not disposed of, and returns only cancelled. |
| GoConsumer.StepKeeps | libs/go-common/kafka/consumer.go:106-212 | Every step keeps: a claim stands for a success, an abandoned attempt or the attempt in progress, and everything read past is disposed of. |
| GoConsumer.CommittedOrOrphaned | libs/go-common/kafka/consumer.go:165-235 | With arbitrary crashes, failed releases and unanswered claims, a committed record is quarantined, handled, or its key was abandoned by some attempt; nothing else. |
| GoConsumer.GracefulLosesNothing | libs/go-common/kafka/consumer.go:165-235 | Interrupted only by cancellation, with no release leaving its claim behind, a claim held between messages means the handler succeeded, and the committed offset passes only handled or quarantined events. |
| GoConsumer.WithoutDedupLosesNothing | libs/go-common/kafka/consumer.go:185-235 | Without a deduper every run, crashes included, commits only handled or quarantined events. |
| GoConsumer.AbandonedClaimMasksForever | libs/go-common/kafka/consumer.go:185-190 | Once an attempt has abandoned a key, by a crash or any failed release, no continuation that answers its claims handles the event, and only the record then on its way to the DLQ can still reach it. |
| GoConsumer.LostExactlyWhenAbandoned | libs/go-common/kafka/consumer.go:165-235 | Over all runs that answer a key's claims, a committed record off the DLQ carries an event never handled if and only if some attempt abandoned its key. |
| GoConsumer.HandledAtMostOnce | libs/go-common/kafka/consumer.go:177-195 | Over all such runs, crashes and redeliveries included, no two successful handler calls are for one key. |
| GoConsumer.HandledExactlyOnce | libs/go-common/kafka/consumer.go:165-212 | With graceful interruption every committed event off the DLQ has one successful handler call and one only. |
| GoConsumer.SuccessesInLogOrder | libs/go-common/kafka/consumer.go:112-136 | In every run in which each commit lands, successful handler calls are in log order and none is beyond the committed offset. |
| GoConsumer.OrderNeedsCommits | libs/go-common/kafka/consumer.go:133-135 | With a deduper that can release, a DLQ and two different events to begin with, runs in which only handlers fail, and commits if they may, keep the log order if and only if commits are never lost. |
| GoConsumer.LostCommitReorders | libs/go-common/kafka/consumer.go:133-135 | Such a run: the second event succeeds first, the first is quarantined and then succeeds. |
| GoConsumer.CrashAfterClaim | libs/go-common/kafka/consumer.go:185-195 | A crash right after the claim abandons it, in the first session. |
| ConsumerGroups.StepSeesOwn | libs/go-common/kafka/consumer.go:177-190 | A group's step does the same on the shared Redis as on the group's own keys, and is enabled on both alike. |
| ConsumerGroups.StepSparesOthers | libs/go-common/kafka/consumer.go:177-190 | A group's step leaves every other group's keys alone. |
| ConsumerGroups.GroupsDoNotInterfere | libs/go-common/kafka/consumer.go:177-190 | In any interleaving of groups over one Redis each group's history is a run of that group alone. |
| ConsumerGroups.EveryGroupLosesNothing | libs/go-common/kafka/consumer.go:165-235 | So each gracefully interrupted group keeps the single-group guarantee over the shared Redis. |
| Pipeline.RelayExtends | libs/go-common/outbox/relay.go:80-99 | A relay step only appends to what a partition holds. |
| Pipeline.FreshPairsAreFreshIds | libs/py-common/datacern_common/redisx.py:30-32 | Distinct (tenant, event id) pairs with colon-free tenants give distinct dedup keys. |
| Pipeline.DistinctEventsArePrefix | libs/go-common/outbox/relay.go:76-99 | A partition's distinct events are a prefix of its outbox rows in order, and all of them once every row is marked. |
| Pipeline.SelectedEvents | libs/py-common/datacern_common/kafka.py:228-253 | The consumer's effective first records, read as events, are the partition's distinct events that had an effect, in order. |
| Pipeline.EndToEnd | libs/py-common/datacern_common/kafka.py:201-253 | For any interleaving of outbox, relay, crashes and redelivery there is a prefix of the partition's rows such that each of its rows had its effect or is quarantined, no other row had an effect, every committed record is one of them, and the handler's state is the fold of the prefix's effective rows, each once, in outbox order. |
| Pipeline.DrainedIsComplete | libs/py-common/datacern_common/kafka.py:201-253 | With the outbox drained and the log consumed no row is missing; with nothing quarantined the state is one pass over all rows. |
| Pipeline.TenantEndToEnd | libs/go-common/outbox/relay.go:76-99 | The same for a single tenant and a prefix of that tenant's rows of the outbox. |
| Uuids.ParseToString | libs/go-common/httpx/pagination.go:51-68 | Parsing a UUID's canonical text gives the UUID back. |
| Uuids.StringIsKeySafe | libs/go-common/kafka/consumer.go:184 | Canonical UUID text is ASCII without colons. |
| Base64Url.RawRoundTrip | libs/go-common/httpx/pagination.go:53-68 | The unpadded URL-safe form of section 5 of RFC 4648 decodes back to the same bytes. |
| Base64Url.PaddedRoundTrip | libs/py-common/datacern_common/web.py:38-46 | The padded form decodes back to the same bytes under Python's lenient reader. |
| Base64Url.CrossReading | libs/py-common/datacern_common/web.py:38-50 | Padded and unpadded forms coincide, and each reader accepts the other's output, exactly when the data fills whole three-byte groups (section 3.2 of RFC 4648). |
| Pagination.ParsePage | libs/go-common/httpx/pagination.go:38-63 | The limit is defaulted, capped or refused and the cursor decoded or refused, with the limit checked first. |
| Pagination.CursorRoundTrip | libs/go-common/httpx/pagination.go:51-68 | Go reads back its own cursor for every UUID. |
| Pagination.PyReads | libs/py-common/datacern_common/web.py:38-50 | Python reads back its own cursor for every UUID. |
| Pagination.CursorsInteroperate | libs/py-common/datacern_common/web.py:38-50 | Both languages write the same cursor for a UUID, and each reads the other's. |
| PageWalk.CursorIsLast | libs/go-common/httpx/pagination.go:70-79 | A page that is not the last ends at the id its cursor decodes to. |
| PageWalk.WalkIsCompleteAndOrdered | libs/go-common/httpx/pagination.go:38-79 | With arbitrary inserts and deletes between pages, a walk returns strictly increasing ids, and once it ends every id present throughout. |
| PageWalk.FixedCollection | libs/go-common/httpx/pagination.go:38-79 | Over a fixed collection the pages concatenate to the collection in order, in the least number of pages. |
| Iceberg.Column | libs/py-common/datacern_common/iceberg.py:171-175 | A column has one cell per row, short rows and nulls filled with null. |
| Iceberg.WriteBatch | libs/py-common/datacern_common/iceberg.py:169-176 | Column by column writing, read back row by row, is the batch cut or padded to the width. |
| Iceberg.Stage | libs/py-common/datacern_common/iceberg.py:154-197 | The staged file holds every row of every batch in order, one cell per column of the first batch; a raising stream stages nothing. |
| Iceberg.CountIsFileSize | libs/py-common/datacern_common/iceberg.py:165-177 | The reported count is the file's row count exactly when there are columns or no rows. |
| Iceberg.HasSnapshot | libs/py-common/datacern_common/iceberg.py:251-263 | Found exactly when some snapshot carries the ingestion id. |
| Iceberg.TableWriter.Commit | libs/py-common/datacern_common/iceberg.py:202-242 | One tagged snapshot per chunk in order, one even for no rows; a normal return has added exactly the staged rows, an exception a prefix of the snapshots, up to all of them. |
| Iceberg.CommitAdds | libs/py-common/datacern_common/iceberg.py:223-234 | A complete commit adds exactly the chunks' rows under the ingestion id and makes the guard true. |
| Iceberg.OneSnapshotExactly | services/ingestion-service/app/domain/tablewriter.py:188 | A commit makes exactly one snapshot if and only if the file comes back in at most one chunk, hence never for a file longer than the chunk size. |
| GuardedIngestion.StepKeeps | services/ingestion-service/app/domain/services/runner.py:338-342 | Every step of crashing and retrying behind the guard keeps the ingestion's snapshots a prefix of one single attempt. |
| GuardedIngestion.NoDuplicatesAndPrefix | services/ingestion-service/app/domain/services/runner.py:338-342 | Over every run the table holds a duplicate-free prefix of one attempt's rows, and all of them once a commit has returned. |
| GuardedIngestion.PartialIsForEver | libs/py-common/datacern_common/iceberg.py:251-263 | Once an attempt died between chunks, every later attempt is turned away and the strict prefix stays. |
| GuardedIngestion.PartialReachable | libs/py-common/datacern_common/iceberg.py:224-226 | Crashing after the first of two chunks reaches such a state. |
| GuardedIngestion.GuardIsCompleteIffOneChunk | services/ingestion-service/app/domain/services/runner.py:338-342 | The guard means completeness in every run if and only if every attempt stages at most one chunk. |
| Multipart.StreamingObjectStore.Drain | libs/py-common/datacern_common/objectstore.py:112-116 | Full parts leave the buffer in order until less than one part is left. |
| Multipart.StreamingObjectStore.Receive | libs/py-common/datacern_common/objectstore.py:106-116 | Parts plus buffer are always the bytes received, with less than one part buffered between chunks; size and digest cover the stream. |
| Multipart.StreamingObjectStore.Put | libs/py-common/datacern_common/objectstore.py:93-137 | A normal return has stored the whole stream in the promised layout; a failure leaves the key as it was, or complete if only the acknowledgement was lost. |
| Multipart.PartCount | libs/py-common/datacern_common/objectstore.py:112-121 | The number of parts is the stream length over the part size, rounded up, and at least one. |
| Multipart.LayoutUnique | libs/py-common/datacern_common/objectstore.py:106-121 | The parts depend only on the stream and the part size, not on the chunking. |
| Projections.Load | libs/go-common/opaclient/projection.go:39-147 | The Go loader fills the projection from the scheme's keys, tombstones reading as absent. |
| Projections.LoadProjection | libs/py-common/datacern_common/projection.py:50-123 | The Python loader fills the projection entry by entry, an object read as a list giving its keys. |
| Projections.LoadersAgree | libs/py-common/datacern_common/projection.py:40-123 | The loaders agree on a request and store exactly when no found flag rests on a bare null, no live grant has a null level, and no live entry has an object for its list of actions. |
| Projections.RenderInjective | libs/go-common/opaclient/projection.go:46-135 | With colon-free tenants and plain workspace ids every key string names one key, even with colons in subjects. |
| Projections.OtherTenantInvisible | libs/go-common/opaclient/projection.go:46-135 | A write under another colon-free tenant changes neither loader's result, whatever user, workspace or hash it is for. |
| Projections.ForeignWriteInvisible | libs/go-common/opaclient/projection.go:46-135 | A write under another user or tenant, with plain workspaces and hashes, changes neither loader's result. |
| Projections.WorkspaceClashes | libs/go-common/opaclient/projection.go:61-87 | For every tenant and user a colon-free workspace's key names another key too if and only if the workspace is called flags or actions. |
| Projections.ClashingWorkspaceIsRead | libs/py-common/datacern_common/projection.py:82-97 | Both loaders then read one user's workspace entry as another's flags or actions. |
| PackLint.CheckEntry | packs/packctl/lint.py:153-164 | No error exactly when required fields are present and the kind's demands are met. |
| PackLint.CheckCases | packs/packctl/lint.py:222-234 | Cases need rows that are mappings with a row_pk, and a dataset. |
| PackLint.LintEntry | packs/packctl/lint.py:147-176 | One entry's errors, remembered names, identities and references are the specified ones, computed field by field, and it raises exactly on unhashable names and impossible shapes. |
| PackLint.Collect | packs/packctl/lint.py:166-176 | The identities and references an entry adds, as text, and the definitions and entity lists on which collecting them raises. |
| PackLint.LintEntries | packs/packctl/lint.py:145-176 | The same over a component's entries, with names remembered within the component. |
| PackLint.LintComponent | packs/packctl/lint.py:127-176 | Unparseable and wrongly shaped components are errors, others are checked entry by entry. |
| PackLint.LintPack | packs/packctl/lint.py:110-192 | A malformed manifest is one error; otherwise the report is free of errors exactly when all components are in order and every reference is, as text, a declared identity, and it raises exactly when some entry does. |
| PackLint.InstallRefIsLintRef | packs/packctl/installer.py:109-190 | Every reference the installer looks up in an error-free component is one the linter collected. |
| PackLint.LintIdIsInstallId | packs/packctl/lint.py:167-168 | Every identity the linter collected is one the installer will bind. |
| PackLint.LintIsSound | packs/packctl/lint.py:178-183 | With string references, no lint errors means every reference the installer looks up is declared. |
| PackLint.NumberIsNotItsText | packs/packctl/lint.py:167-183 | A numeric identity passes the linter for a textual reference the installer cannot resolve. |
| PackLint.FiveIsAMatch | packs/packctl/lint.py:167-183 | Such a pack exists. |
| PackInstall.Installer.DatasetEntry | packs/packctl/installer.py:88-107 | A dataset entry binds its identity or records a dataset failure; it raises only if malformed or if the platform or the reading of its seed file does, and always without a name, with a file that is no text, or with neither a file nor an identity. |
| PackInstall.Installer.LookUp | packs/packctl/installer.py:77-78 | A reference is found exactly when bound; an unknown one is recorded as a failure; an unhashable one raises. |
| PackInstall.Installer.InstallSemanticModel | packs/packctl/installer.py:109-123 | An unknown reference is recorded exactly when an entity's dataset is not bound; a model without a usable definition, entities or name always raises. |
| PackInstall.Installer.InstallPipelines | packs/packctl/installer.py:184-193 | The same for pipelines, which go on after an unknown reference. |
| PackInstall.Installer.InstallCases | packs/packctl/installer.py:158-165 | The same for a cases component. |
| PackInstall.Installer.ExpandSources | packs/packctl/installer.py:50-64 | Expanding a chart's sources raises exactly when they are no list of mappings or name an unhashable saved query. |
| PackInstall.Installer.InstallDashboard | packs/packctl/installer.py:139-144 | A dashboard raises only on a document dict() cannot take, on charts or sources of the wrong shape, or with the platform, and on the first three always. |
| PackInstall.Installer.InstallEntries | packs/packctl/installer.py:125-223 | The kinds that are entries with fields to take raise only on a file that is no list where one is needed, on a missing field or unhashable identity, or with the platform, and on the first two always. |
| PackInstall.Installer.InstallComponent | packs/packctl/installer.py:85-223 | Only datasets bind anything, unknown references are exactly the dangling ones, a well-shaped component raises only with the platform, and one the installer cannot take always raises. |
| PackInstall.Installer.InstallKind | packs/packctl/installer.py:85-227 | A kind's components are visited in order up to the first failure. |
| PackInstall.Installer.Install | packs/packctl/installer.py:67-250 | A linted pack with string references never stops on an unknown dataset reference; one is recorded only when undeclared or, when kept going, after a dataset failure; an install without failures had every reference declared; components are visited in install order, and an install that did not raise could take all it visited. |
| PackInstall.OneKind | packs/packctl/installer.py:80-229 | Installing one kind keeps the progress made: what is bound, what dangles and what is done. |
| PackShapes.LintCleanShapes | packs/packctl/lint.py:195-211 | A component that lints without errors is one that gives the installer no reason to raise if and only if it fits in the listed ways the linter does not check, and one the installer can get past if and only if it fits or is one of the two exceptions. |
| PackShapes.LintCleanPackCrashes | packs/packctl/installer.py:184-186 | A pack without lint errors whose one pipeline, a bare mapping, makes the installer raise. |
| Vault.QueueLocCollides | libs/py-common/datacern_common/secrets.py:122-132 | Two targets share a queue place exactly when mount and path join to the same text. |
| Vault.QueueLocInjective | libs/py-common/datacern_common/secrets.py:122-132 | With colon-free mounts every target has its own queue place. |
| Vault.ScheduleDisplaces | libs/py-common/datacern_common/secrets.py:122-132 | Of two targets scheduled one after the other a sweep misses the first, due one if and only if they share a queue place. |
| Vault.ReadsBack | libs/py-common/datacern_common/secrets.py:76-107 | A put is read back field by field over the older fields, a delete leaves nothing, under every spelling of the reference, and schedules and other references change no read. |
| Vault.VaultSecretsStore.Put | libs/py-common/datacern_common/secrets.py:76-86 | New fields are merged over the old ones for every reference, nothing else changes, and the queue stays in order when the reference is not part of it. |
| Vault.VaultSecretsStore.Delete | libs/py-common/datacern_common/secrets.py:103-107 | The secret and its metadata are gone for every reference, nothing else changes, and the queue stays in order when the reference is not part of it. |
| Vault.VaultSecretsStore.ScheduleDestroy | libs/py-common/datacern_common/secrets.py:109-134 | An existing secret is stamped, and the target's queue entry carries this schedule. |
| Vault.VaultSecretsStore.SweepEntry | libs/py-common/datacern_common/secrets.py:149-167 | A due entry's target goes before the entry; an entry that is not due is untouched. |
| Vault.VaultSecretsStore.RunDueDestroys | libs/py-common/datacern_common/secrets.py:140-168 | A normal return is the specified sweep with its count; a server error in the middle removed only due entries and their targets. |
| Vault.QueueIsPending | libs/py-common/datacern_common/secrets.py:109-168 | Over every run of puts, deletes, schedules and sweeps the queue holds exactly one entry per pending target, with its latest schedule. |
| Vault.SweepDestroysExactlyDue | libs/py-common/datacern_common/secrets.py:140-168 | A sweep destroys a secret if and only if its latest schedule is due, leaves no due entry, counts each due target once, and an immediate second sweep does nothing. |

## Left out

- Dedup expiry: claims and marks carry a 24 hour lifetime in Redis and are never dropped here, so redelivery is taken to happen within it.
- Several partitions, rebalancing and zombie members: one partition's log and one live member at a time; a tenant's rows stay on one partition.
- `consume_batch` (libs/py-common/datacern_common/kafka.py:172-199) commits whole batches and keeps no per-record frontier.
- Group independence for the Python consumer: its dedup key is not scoped by group.
- The Go relay's rows become visible in id order and one relay instance runs at a time; a failed publish lands at once or never.
- Relay.RelayService.FetchUnpublished: the service's own query is behind an interface; the method scans the table as the interface's comment asks, oldest first.
- RelayWorkers.OutboxRelay.RelayOnce: the rows the SELECT returns are an input, any answer the query may give, with ties in any order; the worker setting is not modelled.
- GoConsumer.ConsumerGroup.RunLoop: waits and failed fetches are bounded by a number after which the context is cancelled, since an endless run has no result; runs that never cancel are covered by the transition system.
- PyConsumer.KafkaConsumer.RunLoop: works through the records present; the stop event and later arrivals are steps of the transition system.
- Pruning.Sweeper.PruneTable: an endless sweep has no result, so the process is given a number of passes and may be stopped after them.
- Backoff delays, trace headers, logging, topic creation, DLQ record bodies and SASL or TLS set-up.
- Python's `clamp_limit` (libs/py-common/datacern_common/web.py:30-35) refuses limits above the maximum, which Go caps; only the Go rule is modelled.
- Timestamps are integers; Vault's ISO text is an instant with the same order, and its key versions and metadata reads are not modelled.
- Python's UUID reader also takes `urn:` prefixes and braces, and within the thirty-two digits what `int` takes in base 16, such as underscores and a leading `0x`; those and non-ASCII cursor text are outside the Python codec's model.
- The broker client's own size limits: a DLQ copy it finds too large counts as a remote call that raised.
- Iceberg.TableWriter.Commit: how the file library splits a staged file into chunks is a contract (non-empty, bounded, concatenating to the file); the `source` tag, schemas and namespaces are not modelled.
- GuardedIngestion.NoDuplicatesAndPrefix: attempts of one ingestion do not overlap in time.
- Multipart.StreamingObjectStore.Put: the digest is the sequence of bytes it was fed; the part size is at least one. A create_multipart_upload whose answer is lost leaves an upload open that nobody aborts; open uploads hold no object and are not modelled.
- Projections.LoadProjection: stored values are read alike by both JSON readers, although Python's also takes NaN and Infinity where Go's refuses the entry; Redis errors, other fields of the wrong JSON type and Go's case-insensitive field names are not modelled, nor is the difference between nil and empty lists; the URN hash is a parameter.
- Vault.QueueIsPending: runs in which callers write references inside the queue's own prefix, or use mounts with colons, are not covered; server errors are modelled only for the sweep.
- PackLint.LintPack: warnings, the deferred-entry check, floats, and Python's equality between numbers and booleans are not modelled; a manifest that does not load is given as such.
- PackInstall.Installer.Install: the client's own demands on what it is handed, such as a dashboard's name and chart fields, a memory's content, a case row's projection or a non-empty memories file, count as the platform raising, as does a seed file that cannot be read; a failing dataset call either records a failure or yields a URN; what sources expand to, the ledger, shared YAML anchors, the order of a mapping's fields, hence which charts a dashboard written as a list of pairs has, and definitions written as such lists are not modelled.
- The AWS, Azure and GCP secret stores, object store operations other than `put`, JWT checks, OPA evaluation, the HTTP layer, service wiring and the remaining pack client are not modelled.
