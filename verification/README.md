# Verified model of the remote-control server

A Dafny model of the parts of the RustDesk-compatible server that must stay right through
crashes, resends, races and lost messages, with proofs over all inputs and all runs:

- **The relay's durable outbox** (`OutboxSpec`, `Outbox`, `OutboxRuns`, `OutboxProofs`,
  `OutboxTheorems`, `OutboxEffects`): lifecycle events are queued, saved, handed to the gateway, acknowledged,
  quarantined and archived. `OutboxRuns` is a state machine over every operation, every way a
  file write can end, crashes and reopens.
- **Status checks and quarantine export** (`QuarantineExport`): what the gateway accepts from a
  relay, and the paging loop.
- **Relay admission** (`AdmissionSpec`, `Admission`, `AdmissionRuns`, `AdmissionTheorems`,
  `AdmissionProgress`):
  permits, waiting connections and pairs under every interleaving of commands, connections,
  terminations, cleanups and control sessions.
- **Command replay** (`CommandReplay`): the gateway's resend loop, and the relay's replay table.
- **Leader leases** (`Lease`): the conditional upsert, the reconcile loop, and many nodes.
- **Authorization replication** (`AuthCacheSpec`, `AuthCache`, `EventHub`, `AuthDatabase`,
  `AuthReplay`, `SnapshotCapture`, `Replication`, `ReplicationTheorems`, `Revocation`): the API's
  tables, the commits that change them, the events published afterwards, the hub's bounded
  history and channels, snapshots, and the connection server's cache.
- **Wire formats** (`Bits`, `FrameCodec`, `SocketAddress`, `EventStream`): RustDesk frames, packed
  socket addresses, and the server-sent event stream (section 9.2 of the WHATWG HTML Living
  Standard).
- **Policy** (`AclPolicy`, `StrategyMerge`): the two access-rule evaluators, and the strategy merge.

Components that change state in the source are classes and loops here; each method's contract
ties its new state to a function on values, and the run theorems are about those functions.

## How the model treats the environment

- Clocks, generated identifiers, hash-map order and the outcome of every write or database call
  are parameters, so a theorem holds for all of them. Freshly generated identifiers are assumed
  not to have been used before, and clocks not to run backwards within a run.
- Replacing `outbox.json` ends in one of three ways: done; not replaced; replaced although the call
  failed. A backup file can be left torn. What a rename made visible is taken to survive a crash.
- Identifiers, statuses, reasons and setting keys are parsed values; every text outside the known
  ones has a constructor of its own, so malformed input keeps its error paths.
- A change is committed in one step and announced in a later one, as the handlers do it. Events are
  assumed to be published in commit order (`SwappedEdits` shows what happens otherwise), and
  taking a revision and appending to the history to be one step (the code takes the revision
  before the lock, hub.go lines 56-57). A transaction that writes several tables and is followed
  by several events is several commits.
- The gateway acknowledges and quarantines events by echoing what it was sent.

## Where the code does not do what one would expect

- With rules present but all disabled, the API allows and the server refuses. `EvaluatorsAgree`
  gives the exact condition.
- Deleting a user drops the user's rules, strategies and memberships from the tables, and editing
  one can drop memberships, but no event says so, so caches keep them until the next snapshot.
  `EventAgrees` shows that applying a change's event keeps a cache in agreement if and only if
  nothing of the change is unannounced; `DeletionLeavesRule` is an instance of the failure.
- Handlers commit before they publish, and a snapshot is taken without a lock against either. Between
  two equal looks at the revision it can therefore read rows that no event has announced
  (`CommittedRuleAhead`), and the configuration even later (`ConfigurationAhead`). `SnapshotFits` and
  `ConfigurationFits` give the exact conditions under which a snapshot shows the tables of its own
  revision. It heals: `RowCatchesUp` shows that the events replayed onto rows read ahead of them still end
  in agreement once everything up to the read is applied.
- The tables keep revoked sessions and mark deleted strategies, where events remove them from the
  cache; a deleted user is a disabled row in the cache. Agreement is therefore on usable
  sessions, undeleted strategies and users up to disabled leftovers, and `SameAccess` shows
  that this decides every token alike.
- Two lease holders are impossible only while every reconcile finishes before the expiry it stored;
  `LateWorkerIsDoubled` shows that the timing condition cannot be dropped.

## Model

| member | source | states |
|---|---|---|
| `OutboxTheorems.PersistedHistory` | art-hbbr/src/outbox.rs:62-201 | From an empty directory, through any crashes, failed writes and reopens: the persisted history only grows by extension, every pair's events alternate active, closed, active, ..., a pair is stored as open exactly when its last persisted event is "active", the stored queue is the history minus what was removed, and first deliveries are a prefix of it. |
| `OutboxTheorems.PairAlternates` | art-hbbr/src/outbox.rs:165-201 | A history in which every event flips its pair reads active, closed, active, ... for each pair, and a pair is open exactly after an odd number of events. |
| `OutboxTheorems.NothingVanishes` | art-hbbr/src/outbox.rs:144-317 | An event once in a persisted snapshot, queued or quarantined, is in every later state acknowledged, or still in the file, or in a complete backup file. |
| `OutboxTheorems.HandedOutIsSaved` | art-hbbr/src/telemetry.rs:116-131 | In every reachable state healthy means disk equals memory, and an event handed out is already the front of the file. |
| `OutboxTheorems.Redelivered` | art-hbbr/src/telemetry.rs:116-131 | Once handed out, an event stays the front in memory and on disk, through crashes and reopens, until the gateway answers it. |
| `OutboxTheorems.FrontIsHandedOut` | art-hbbr/src/telemetry.rs:116-131 | Such a front is what every later successful hand-out returns, and a hand-out fails only in its write. |
| `OutboxTheorems.RevisionDetermines` | art-hbbr/src/outbox.rs:217-242 | Over a whole run including crashes, in memory or on disk, equal quarantine revisions mean equal quarantines. |
| `OutboxTheorems.ArchiveIsBackedUp` | art-hbbr/src/outbox.rs:278-317 | Archiving empties the quarantine only of the named revision and only with an identical complete backup on disk; otherwise the quarantine stays. |
| `OutboxTheorems.RepeatedArchive` | art-hbbr/src/outbox.rs:278-317 | Repeating an archive request after anything at all never removes a quarantine other than the one it named. |
| `OutboxTheorems.CapacityHolds` | art-hbbr/src/outbox.rs:93-201 | Queue, open pairs and quarantine never exceed 4096 in memory or on disk, so closing an open pair can fail only in the write. |
| `OutboxTheorems.AdmittedPairFits` | art-hbbr/src/outbox.rs:136-201 | The admission check holds exactly when a new pair's opening event would be taken; its closing event then fits as well, each failing only in its write. |
| `OutboxTheorems.ReopenSucceeds` | art-hbbr/src/outbox.rs:62-132 | A reopen accepts whatever earlier runs left, fails only in its write, and closes every interrupted pair. |
| `OutboxTheorems.RunGrows` | art-hbbr/src/outbox.rs:62-317 | No run shrinks the persisted history or the deliveries, or changes what a revision stands for. |
| `OutboxEffects.ReportIsRecorded` | art-hbbr/src/outbox.rs:165-201 | In every run a report that opens a pair with room, or closes an open one, extends the history by exactly its event and, once saved, the persisted history too; any other report leaves both alone. |
| `OutboxEffects.ReportRecords` | art-hbbr/src/outbox.rs:165-201 | Such a report appends its event, flips the pair, keeps everything else and is saved; it is answered Ok exactly when the write is. |
| `OutboxEffects.ReportRefuses` | art-hbbr/src/outbox.rs:165-191 | Every other report changes nothing and is answered by the first reason against it. |
| `OutboxEffects.DrainDelivers` | art-hbbr/src/telemetry.rs:116-149 | From any state of any run a working disk and gateway drain the queue, after which everything reported has been delivered and saved, in order. |
| `OutboxEffects.AcknowledgeRemoves` | art-hbbr/src/outbox.rs:243-255 | The fitting answer takes exactly the front off and is saved; a mismatch or another identifier changes nothing. |
| `OutboxEffects.QuarantineMoves` | art-hbbr/src/outbox.rs:217-242 | A rejected front moves to the end of the quarantine with its reason under the new revision; the three refusals change nothing. |
| `OutboxEffects.HandOutGivesOldest` | art-hbbr/src/telemetry.rs:116-131 | The oldest queued event is handed out whenever the outbox is healthy or can be saved, and only then. |
| `OutboxEffects.ArchiveEmpties` | art-hbbr/src/outbox.rs:278-317 | With nothing in the way an archive leaves an empty quarantine, a new revision and a complete backup of the old one. |
| `OutboxEffects.ArchiveRefuses` | art-hbbr/src/outbox.rs:278-311 | What an archive is refused for, in order; repeating the last one only saves. |
| `OutboxEffects.PageIsSlice` | art-hbbr/src/outbox.rs:257-276 | A page is the next ten events at the asked or current revision, or the error. |
| `OutboxEffects.SummaryCounts` | art-hbbr/src/outbox.rs:205-216 | A status counts queue, quarantine and open pairs, tells whether admission is blocked, and shows the first five quarantined events. |
| `OutboxEffects.AcceptedSnapshots` | art-hbbr/src/outbox.rs:85-123 | A stored snapshot is accepted exactly when version, size, events, identifiers, reasons and pair names are in order. |
| `OutboxEffects.ReopenRecovers` | art-hbbr/src/outbox.rs:62-132 | A reopen keeps queue, quarantine and revision and appends one closing event per open pair. |
| `OutboxEffects.AckedByGateway` | art-hbbr/src/outbox.rs:243-255 | An event counts as acknowledged only if the gateway acknowledged it. |
| `OutboxProofs.RunKeeps` | art-hbbr/src/outbox.rs:62-317 | Every operation, crash and reopen keeps the run invariant. |
| `OutboxProofs.OpenKeeps` | art-hbbr/src/outbox.rs:62-132 | A reopen from any file the runs can leave keeps the invariant and turns open pairs into closing events. |
| `OutboxProofs.ReportKeeps` | art-hbbr/src/outbox.rs:165-201 | A report keeps the invariant whatever its write does. |
| `OutboxProofs.AckKeeps` | art-hbbr/src/outbox.rs:243-255 | An acknowledgement, fitting or not, keeps the invariant. |
| `OutboxProofs.QuarantineKeeps` | art-hbbr/src/outbox.rs:217-242 | Moving the front into quarantine under a new revision keeps the invariant. |
| `OutboxProofs.ArchiveKeeps` | art-hbbr/src/outbox.rs:278-317 | An archive, through backup and snapshot write failures, keeps the invariant. |
| `OutboxProofs.NextEventKeeps` | art-hbbr/src/telemetry.rs:116-131 | Handing out, with its repairing flush, keeps the invariant. |
| `Outbox.CheckEvents` | art-hbbr/src/outbox.rs:97-106 | The validation loop accepts exactly well-formed events without a repeated identifier. |
| `Outbox.CloseInterrupted` | art-hbbr/src/outbox.rs:114-123 | The drain appends one closing event per open pair, or fails on a malformed one. |
| `Outbox.Recover` | art-hbbr/src/outbox.rs:85-123 | A stored snapshot is refused for exactly its first defect, else migrated with its open pairs closed. |
| `Outbox.Outbox.Open` | art-hbbr/src/outbox.rs:62-132 | Opening computes the recovered state, saves it, and holds the lock exactly when it succeeds; a locked directory is left alone. |
| `Outbox.Outbox.Flush` | art-hbbr/src/outbox.rs:144-164 | A flush is healthy only when fully synced; otherwise the file is the old or the new content. |
| `Outbox.Outbox.Admits` | art-hbbr/src/outbox.rs:136-143 | Admission needs a healthy outbox with room for an opening and a closing event. |
| `Outbox.Outbox.Report` | art-hbbr/src/outbox.rs:165-201 | The object's new memory, health, disk and result are those of the report on values, error paths included. |
| `Outbox.Outbox.Acknowledge` | art-hbbr/src/outbox.rs:243-255 | Only a fitting acknowledgement of the front removes it; the whole new state is that of the value model. |
| `Outbox.Outbox.Quarantine` | art-hbbr/src/outbox.rs:217-242 | Only the fitting front moves, with its reason and a new revision; the whole new state is that of the value model. |
| `Outbox.Outbox.ListPage` | art-hbbr/src/outbox.rs:257-276 | A page is the requested slice at the requested revision, or the error. |
| `Outbox.Outbox.Archive` | art-hbbr/src/outbox.rs:278-317 | Backup, comparison, removal and save behave as the value model for every outcome of both writes. |
| `Outbox.Outbox.NextEvent` | art-hbbr/src/telemetry.rs:116-131 | An unhealthy outbox is flushed before its front is handed out. |
| `QuarantineExport.Valid` | art-api/internal/relaygateway/operations.go:23-36 | A status passes exactly when its counts fit the capacity together, its sample is small and well formed, and its times are not in the future. |
| `QuarantineExport.SummaryAccepted` | art-hbbr/src/outbox.rs:205-216 | Every status a reachable outbox reports passes that check apart from the clock tests. |
| `QuarantineExport.Fetch` | art-api/internal/relaygateway/quarantine.go:61-76 | A reply is passed on exactly when revision, offset, counts and every event check out. |
| `QuarantineExport.FetchedIsPart` | art-api/internal/relaygateway/quarantine.go:61-76 | A page that passes is the next part of the quarantine it was read from, never empty before the end. |
| `QuarantineExport.Export` | art-api/internal/httpapi/relay_quarantine.go:48-69 | The loop ends; a successful export is exactly the quarantine of the requested revision; it succeeds whenever the relay stays at that revision. |
| `QuarantineExport.ExportFromRun` | art-api/internal/httpapi/relay_quarantine.go:48-69 | Against a relay that goes on running, crashing and reopening between the requests, a success is the quarantine it had at the requested revision, and meeting it at that revision throughout means success. |
| `QuarantineExport.SameRevisionSameContents` | art-hbbr/src/outbox.rs:217-242 | What the export asks of its relay holds in every run: one revision always shows one acceptable quarantine. |
| `AdmissionTheorems.PermitsAreBounded` | art-hbbr/src/main.rs:255-305 | In every interleaving a permit admits at most two connections and forms at most one pair, having then admitted exactly two; both halves of every pair are logged admissions for its uuid by the one permit granted to that uuid. |
| `AdmissionTheorems.TerminateIsFinal` | art-hbbr/src/control.rs:115-182 | After a permit and then a terminate of a uuid nothing more is admitted or paired for it in that control session. |
| `AdmissionTheorems.TablesAreBounded` | art-hbbr/src/control.rs:139-157 | In every run at most 4096 permits are held and at most 8192 commands remembered per session. |
| `AdmissionTheorems.RunKeeps` | art-hbbr/src/main.rs:211-305 | Every command, connection step, cleanup and session change keeps each permit's account balanced. |
| `AdmissionTheorems.RunBarred` | art-hbbr/src/control.rs:115-182 | A terminated uuid stays barred, and nothing more is admitted or paired for it, through every further step of the session. |
| `AdmissionProgress.AdmittedInTime` | art-hbbr/src/main.rs:255-274 | In every run every connection was let in less than thirty seconds after the permit granted to its uuid. |
| `AdmissionProgress.PermitLasts` | art-hbbr/src/main.rs:255-274 | Whatever else happens, a connection for a uuid permitted less than thirty seconds ago, tried at most once before and neither terminated nor cleared, is let in. |
| `AdmissionProgress.PairForms` | art-hbbr/src/main.rs:255-305 | Two connections in time after a grant become a pair, and the permit is then spent. |
| `AdmissionProgress.TerminateRemoves` | art-hbbr/src/main.rs:211-222 | A terminated uuid is in no map and every other uuid keeps its entries. |
| `AdmissionProgress.TerminateAnswers` | art-hbbr/src/control.rs:167-181 | A new terminate clears its uuid and answers and remembers whether something was waiting or running. |
| `AdmissionProgress.TakenCommands` | art-hbbr/src/control.rs:120-175 | A new command is taken exactly when names, lifetime, session size and, for a permit, outbox, uuid and capacity allow it. |
| `AdmissionProgress.SeenCommands` | art-hbbr/src/control.rs:126-132 | A request seen before is answered if it is the same command, whatever its lifetime, and refused otherwise. |
| `AdmissionProgress.GrantGives` | art-hbbr/src/control.rs:158-165 | A granted permit is for two connections within thirty seconds. |
| `AdmissionProgress.CleanupDrops` | art-hbbr/src/main.rs:388-404 | Clean-up drops exactly permits past their end and connections that waited ninety seconds. |
| `AdmissionProgress.SessionStartsClear` | art-hbbr/src/control.rs:192-197 | A new session starts without permits or waiting connections while running relays go on. |
| `AdmissionProgress.FinishFrees` | art-hbbr/src/main.rs:292-294 | A relay that ends leaves the active map and nothing else moves. |
| `Admission.RelayState.TerminateRelay` | art-hbbr/src/main.rs:211-222 | Terminating removes permit, waiting connection and active entry, and reports whether something was running or waiting. |
| `Admission.RelayState.Apply` | art-hbbr/src/control.rs:115-182 | A command is refused for exactly the first applicable reason and then changes nothing; otherwise reply, maps and replay table are those of the value model. |
| `Admission.RelayState.Consume` | art-hbbr/src/main.rs:255-274 | A connection without a live permit changes nothing; otherwise exactly one use is spent. |
| `Admission.RelayState.Join` | art-hbbr/src/main.rs:275-303 | A connection takes the waiting peer, or waits under the permit that admitted it. |
| `Admission.RelayState.Cleanup` | art-hbbr/src/main.rs:388-404 | Cleanup drops exactly expired permits and connections waiting 90 seconds. |
| `Admission.RelayState.ClearEpoch` | art-hbbr/src/control.rs:192-197 | A session change drops permits and waiting connections and leaves running relays. |
| `CommandReplay.Await` | art-api/internal/relaygateway/gateway.go:304-351 | The first wake that is no retry ends the loop; every frame sent until then is the same command, and the loop succeeds exactly with a fitting answer. |
| `CommandReplay.Peer.Send` | art-api/internal/relaygateway/gateway.go:290-351 | One command on its own: sent exactly when accepted and authorized, successful exactly with a fitting answer; the waiter is gone afterwards and a permit stays issued only if authorized. |
| `CommandReplay.Peer.Begin` | art-api/internal/relaygateway/gateway.go:304-315 | A command is registered exactly when the peer is ready and both tables have room; otherwise nothing changes. |
| `CommandReplay.Peer.Withdraw` | art-api/internal/relaygateway/gateway.go:319-326 | An unauthorized permit's uuid is no longer issued, whatever else was registered meanwhile. |
| `CommandReplay.Peer.Finish` | art-api/internal/relaygateway/gateway.go:316-316 | Only the command's own waiter goes. |
| `CommandReplay.WaiterStays` | art-api/internal/relaygateway/gateway.go:304-326 | While other commands begin, are withdrawn and finish in any order, a waiter keeps its uuid until its own command is done, and the tables keep within 64 and 4096. |
| `CommandReplay.ExecutesOnce` | art-hbbr/src/control.rs:126-182 | A run with any repetitions in any order reaches the very state of the run in which every request arrives once per session. |
| `CommandReplay.GatewayRunsExecuteOnce` | art-hbbr/src/control.rs:126-182 | From the initial relay, with nothing assumed about its tables, every gateway run ends as the run in which no request arrives twice in a session. |
| `CommandReplay.ReplayChangesNothing` | art-hbbr/src/control.rs:126-132 | A repeated request is answered from the table and changes no map. |
| `CommandReplay.SameReply` | art-hbbr/src/control.rs:126-132 | Whatever happens in between, a resend in the session gets the first reply and never restores spent permit uses. |
| `CommandReplay.FirstIsRemembered` | art-hbbr/src/control.rs:177-181 | A first execution is remembered with its reply. |
| `Lease.Store.Acquire` | art-api/internal/store/sqlstore/cluster.go:36-44 | The row is taken exactly when free, owned or expired, other leases stay, and an error may hide a write. |
| `Lease.Store.Release` | art-api/internal/store/sqlstore/cluster.go:45-48 | Only the owner's row is removed. |
| `Lease.Coordinator.Reconcile` | art-api/internal/cluster/coordinator.go:62-99 | After a reconcile the worker runs exactly when the lease was answered as owned. |
| `Lease.Coordinator.RunLeader` | art-api/internal/cluster/coordinator.go:62-99 | The row after the loop is the fold of its conditional takes, each for the requested time but at least three seconds, then released; no worker is left. |
| `Lease.OneWorker` | art-api/internal/cluster/coordinator.go:50-99 | Through errors, takeovers and releases, no two nodes have a live worker, provided each leading node reconciles before its stored expiry. |
| `Lease.LateWorkerIsDoubled` | art-api/internal/cluster/coordinator.go:62-99 | The timing condition is necessary: past the stored expiry any other node's next reconcile makes two workers. |
| `AuthCacheSpec.Authorize` | art-core/src/auth/cache.rs:231-279 | A token is let in exactly when its user is known, enabled, approved and at its version with a standing session of their own, with that user's and session's identity; each refusal names the first thing that fails, user before session before version before clock. |
| `AuthCache.AuthCache.AcceptRevision` | art-core/src/auth/cache.rs:708-719 | A newer revision, or any from another source, is accepted and recorded; nothing else changes. |
| `AuthCache.AuthCache.ReplaceWith` | art-core/src/auth/cache.rs:281-334 | The object becomes what the value model makes of the snapshot. |
| `SnapshotCapture.ReplaceTakes` | art-core/src/auth/cache.rs:281-334 | A snapshot of another source, or no older than the cache, is taken with its source, revision, configuration and only its rows; an older one of the same source changes nothing. |
| `SnapshotCapture.ReplaceMissesNothing` | art-core/src/auth/cache.rs:289-318 | No row of a taken snapshot is missing, unless a later row has its id. |
| `SnapshotCapture.ReplaceTakesGroups` | art-core/src/auth/cache.rs:320-332 | A user is in exactly the groups the taken snapshot's active memberships name. |
| `AuthCache.AuthCache.UpsertMembership` | art-core/src/auth/cache.rs:537-555 | An accepted membership leaves the group once or not at all in the user's list. |
| `AuthCache.AuthCache.ApplyEvent` | art-core/src/sync.rs:107-169 | Each kind of event updates its own table, once, if its revision is accepted; unknown kinds leave even the revision alone. |
| `AuthCache.CollectRows` | art-core/src/auth/cache.rs:289-318 | Rows become a map by id, the last one winning. |
| `AuthCache.CollectMemberships` | art-core/src/auth/cache.rs:320-332 | Active memberships become each user's group list. |
| `EventHub.EventHub.PublishEvent` | art-api/internal/events/hub.go:54-71 | An event gets the next revision, enters a history of at most 1024, and reaches every channel with fewer than 64 waiting. |
| `EventHub.EventHub.SubscribeAfter` | art-api/internal/events/hub.go:83-95 | A subscriber gets an empty channel and the retained events its cursor has not seen. |
| `EventHub.EventHub.Unsubscribe` | art-api/internal/events/hub.go:96-103 | Only that channel goes. |
| `EventHub.BacklogExact` | art-api/internal/events/hub.go:83-95 | The backlog is everything published after the cursor if and only if at most 1024 events were; otherwise it is the newest 1024. |
| `EventHub.BacklogAfterRestart` | art-api/internal/events/hub.go:78-95 | A cursor of another process gets the whole retained history. |
| `EventHub.PublishHolds` | art-api/internal/events/hub.go:54-62 | The history is always the last 1024 events published, numbered without a gap. |
| `AuthDatabase.EventAgrees` | art-api/internal/auth/service.go:345-381 | Applying the event of a change keeps cache and tables in agreement if and only if the event announces everything the change writes. |
| `AuthDatabase.DeletionAgrees` | art-api/internal/store/sqlstore/store.go:641-667 | A user deletion keeps agreement if and only if no rule, live strategy or membership of the user goes with it. |
| `AuthDatabase.EditAgrees` | art-api/internal/store/sqlstore/store.go:584-640 | A user edit keeps agreement if and only if it removes no membership. |
| `AuthDatabase.SessionsRevoked` | art-core/src/auth/cache.rs:598-614 | Dropping a user's sessions from the cache matches marking them revoked in the tables. |
| `AuthDatabase.StrategyDeleted` | art-api/internal/store/sqlstore/store.go:2405-2415 | Dropping a strategy from the cache matches keeping it as a deleted row in the tables. |
| `AuthDatabase.SameAccess` | art-core/src/auth/cache.rs:231-279 | A cache in agreement lets in exactly the tokens the tables let in, with the same decision. |
| `AuthReplay.RowCatchesUp` | art-api/internal/httpapi/server.go:2263-2292 | A row read at a later position than the snapshot's revision, with all events from that revision on replayed onto it, agrees with the tables at every position from its read on, although some changes are applied twice. |
| `AuthReplay.RevokedUntilRewritten` | art-api/internal/store/sqlstore/store.go:898-901 | Until its row is written again, a session revoked with all of its user's sessions stays revoked. |
| `AuthReplay.UpdateRow` | art-core/src/sync.rs:107-169 | What an event does to the cache it does row by row: it states the row it names, or drops a session of the user it names. |
| `AuthReplay.WriteRow` | art-api/internal/store/sqlstore/store.go:584-667 | What a change does to the tables it does row by row, the rows no event mentions included. |
| `AuthReplay.AgreeByRows` | art-core/src/auth/cache.rs:231-403 | Agreement of all tables and the configuration is agreement of every row. |
| `SnapshotCapture.AuthSnapshot` | art-api/internal/httpapi/server.go:2263-2292 | With commits and publications going on all the while, a captured snapshot shows every table at its own read, none before its revision, and nothing was published between its two looks; a retry is asked for exactly when all three attempts saw a publication. |
| `SnapshotCapture.StillIsCaptured` | art-api/internal/httpapi/server.go:2265-2288 | Between two equal looks at the revision every table was read while exactly that many changes were published, so what it shows beyond them was committed and not announced. |
| `SnapshotCapture.ReplaceAgrees` | art-core/src/auth/cache.rs:281-334 | Whatever the cache held, an accepted snapshot leaves every row as it was when its table was read. |
| `SnapshotCapture.SnapshotFits` | art-api/internal/httpapi/server.go:2263-2292 | An accepted snapshot agrees with the tables of its own revision if and only if, for every row, the last committed but unannounced change to alter it before its table was read, if any, left it as it had been. |
| `SnapshotCapture.ConfigurationFits` | art-api/internal/httpapi/server.go:2281-2288 | A snapshot's configuration is that of its revision if and only if the last one set between the revision and the read, if any, is the one that held already. |
| `SnapshotCapture.CommittedRuleAhead` | art-api/internal/httpapi/server.go:880-884 | A rule committed and not yet published while the rules are read shows up under the revision before its event. |
| `SnapshotCapture.ConfigurationAhead` | art-api/internal/httpapi/server.go:2281-2288 | A setting changed after the second look at the revision shows up under the earlier revision. |
| `Replication.RunKeeps` | art-core/src/sync.rs:71-169 | Every interleaving of commits, announcements, subscriptions, deliveries, losses, disconnects, snapshots, stale duplicates, saves and crashes keeps the replication invariant. |
| `Replication.TakeKeeps` | art-core/src/sync.rs:107-169 | An event that skips nothing keeps a cache equal to the published events folded onto its snapshot. |
| `Replication.DeliverFed` | art-core/src/sync.rs:92-105 | Every event the subscription did not lose is on its way or applied. |
| `ReplicationTheorems.SyncedShowsFold` | art-api/internal/events/hub.go:54-104 | In every run a node that skipped nothing agrees, configuration included, with the fold of the log up to its revision, as soon as it has applied every event up to the last position its snapshot read and those changes were announced in full. |
| `ReplicationTheorems.CacheIsReplay` | art-core/src/sync.rs:107-169 | In every run, whatever events leave unsaid, the cache of such a node is exactly the published events folded onto the tables of its last accepted snapshot. |
| `ReplicationTheorems.SnapshotRestores` | art-core/src/auth/cache.rs:281-334 | After any gap an accepted snapshot puts the node back in step, and it agrees with the snapshot's own revision if and only if no committed change without its event had moved a row when it was read. |
| `ReplicationTheorems.WholeRunStaysSynced` | art-api/internal/events/hub.go:54-104 | With room in the channel, cursors within 1024 events and announced changes, a node that adopted and saved a snapshot stays in step through every interleaving, crashes back to its last save included. |
| `ReplicationTheorems.SnapshotStartsWhole` | art-core/src/sync.rs:46-69 | A snapshot adopted and saved beside an open stream puts the node in step if that stream has lost nothing from the snapshot's revision on. |
| `ReplicationTheorems.OpenFeedLosesNothing` | art-api/internal/events/hub.go:54-95 | A stream opened at a cursor within 1024 events whose channel was never full has lost nothing from the cursor on. |
| `ReplicationTheorems.ReplicationAgrees` | art-api/internal/events/hub.go:54-104 | After anything at all, one snapshot accepted and saved, stream open or not, and then any run without a lost event: once everything up to its snapshot's last read is applied, the cache agrees with the fold of the log up to its revision. |
| `ReplicationTheorems.CaughtUp` | art-core/src/sync.rs:80-105 | With every change announced and nothing in flight the cache shows the tables and the configuration as they are now. |
| `ReplicationTheorems.WholeRunSameAccess` | art-core/src/auth/cache.rs:231-279 | On such runs a node that has caught up with its snapshot lets in exactly the tokens the tables of its revision let in. |
| `ReplicationTheorems.DeletionLeavesRule` | art-api/internal/auth/service.go:374-381 | Deleting a user who has a rule leaves the tables without rules and the cache with one. |
| `ReplicationTheorems.SwappedEdits` | art-api/internal/auth/service.go:356-362 | Two edits of one user announced against commit order leave the cache in agreement if and only if they are the same. |
| `Revocation.RevokedStaysOut` | art-core/src/auth/cache.rs:231-334 | Within one source that does not reuse a session id, any cache that accepts a single or revoke-all revocation, whatever source it followed before, refuses the session after every further sequence of events and snapshots, stale, repeated or reordered. |
| `Revocation.SnapshotBars` | art-core/src/auth/cache.rs:281-288 | An accepted snapshot taken after the revocation bars the session too, whatever the node held. |
| `Revocation.CacheOwned` | art-core/src/auth/cache.rs:573-614 | A cache that has a session under its user keeps it so whatever it receives, which is what a revoke-all needs. |
| `Revocation.TablesDead` | art-api/internal/store/sqlstore/store.go:893-901 | In the tables a revoked session stays revoked at every later revision. |
| `FrameCodec.Encode` | art-core/src/protocol/codec.rs:63-89 | A payload within the limits is appended as header and bytes; any other is refused. |
| `FrameCodec.HeaderSays` | art-core/src/protocol/codec.rs:63-89 | The header is the shortest of one to four bytes that fits, and its little-endian value gives its own length and the payload's. |
| `FrameCodec.BytesCodec.DecodeNext` | art-core/src/protocol/codec.rs:27-57 | The buffered decoder advances exactly as the decoder on values, for partial headers, partial payloads and oversized frames. |
| `FrameCodec.DecodeMore` | art-core/src/protocol/codec.rs:27-57 | Bytes that arrive later never change what was already decided. |
| `FrameCodec.ChunkingIsInvisible` | art-core/src/protocol/codec.rs:27-57 | Decoding chunk by chunk gives what decoding the whole stream gives, for every way of cutting it. |
| `FrameCodec.FrameDecodes` | art-core/src/protocol/codec.rs:27-89 | An encoded payload decodes to itself and leaves the rest untouched, for all four header sizes. |
| `FrameCodec.StreamRoundTrip` | art-core/src/protocol/codec.rs:27-89 | Any list of payloads within the limit, encoded and cut anywhere, decodes to exactly that list. |
| `FrameCodec.ReadFrame` | art-hbbr/src/main.rs:369-386 | The handshake reader gives the decoder's frame, end of input or refusal at its own 1 MiB limit. |
| `FrameCodec.LimitsAgree` | art-hbbr/src/main.rs:369-386 | Two limits agree on a frame exactly up to the smaller one. |
| `SocketAddress.FieldsAreDisjoint` | art-core/src/protocol/mod.rs:17-26 | Address, salt and port fields never overlap, for every address, port and salt. |
| `SocketAddress.UnpackIsInverse` | art-core/src/protocol/mod.rs:17-26 | Salt, address and port can be read back from the packed number. |
| `SocketAddress.V4RoundTrip` | art-core/src/protocol/mod.rs:7-32 | For every port and salt the client recovers the port and the address's own octets, all four of an IPv4 address or the last four of an IPv6 address that stands for one, from at most 11 bytes. |
| `SocketAddress.FormsNeverMix` | art-core/src/protocol/mod.rs:7-38 | Exactly the IPv6 addresses that do not stand for IPv4, ::1 included, take the 18-byte form, which is their 16 bytes and the port. |
| `SocketAddress.CanonicalForms` | art-core/src/protocol/mod.rs:9-16 | Which form an address takes follows from its bytes: ten zeros, then two zeros or two 255s, and not ::1. |
| `EventStream.AuthEvents` | art-api/internal/httpapi/server.go:2306-2333 | However the text the handler prints is cut, the reader gets the backlog and the data of every event before the end of the stream, in order, with nothing left over; each live frame carries its own revision as id. |
| `EventStream.HandlerToReader` | art-core/src/sync.rs:92-103 | Handler and reader together: what goes in as backlog and events comes out as exactly that. |
| `EventStream.HandlerIds` | art-api/internal/httpapi/server.go:2306-2327 | The ids of the frames are the revisions of the events, and none for backlog and keepalives. |
| `EventStream.LiveLines` | art-api/internal/httpapi/server.go:2323-2323 | A live frame has three lines: its id, the event name and the data. |
| `EventStream.FirstDataLine` | art-core/src/sync.rs:98-98 | The first data line of a frame counts, without the carriage return it may end with. |
| `EventStream.CutFrames` | art-core/src/sync.rs:95-103 | The inner loop emits the data of every complete frame and keeps the rest. |
| `EventStream.Consume` | art-core/src/sync.rs:92-103 | The reading loop emits the payloads of everything received so far, chunk by chunk. |
| `EventStream.ChunkingIsInvisible` | art-core/src/sync.rs:92-103 | Where the text is cut into chunks makes no difference. |
| `EventStream.BodyReads` | art-api/internal/httpapi/server.go:2306-2327 | Every printed item has no blank line inside and reads back as its payload, a keepalive as nothing. |
| `EventStream.StreamRoundTrip` | art-core/src/sync.rs:92-103 | Any sequence of backlog events, live events and keepalives, cut anywhere, reads back as exactly the payloads in order. |
| `AclPolicy.Evaluate` | art-api/internal/httpapi/server.go:814-842 | The winner loop allows exactly what the order-free policy allows: the applicable rules of least priority, any denial among them deciding. |
| `AclPolicy.AuthorizePolicy` | art-core/src/auth/cache.rs:373-403 | Sort-then-first over the rules in any order decides by the same order-free policy. |
| `AclPolicy.EvaluatorsAgree` | art-core/src/auth/cache.rs:373-403 | For an enabled approved user the two evaluators agree if and only if the user is an administrator, there are no rules, or some rule is enabled. |
| `AclPolicy.RuleCovers` | art-core/src/auth/cache.rs:383-397 | A rule without an id covers everyone or everything, else exactly the user, members, device or devices its type names. |
| `AclPolicy.SortedHead` | art-core/src/auth/cache.rs:399-402 | The sort keeps all rules and puts first one that no other precedes. |
| `StrategyMerge.Resolve` | art-api/internal/strategy/service.go:80-118 | The result merges the live matching strategies by precedence and names exactly the options any matching strategy names. |
| `StrategyMerge.Collect` | art-api/internal/strategy/service.go:83-98 | The first loop picks the live matching strategies, blanks every option a matching one names, and finds the newest change. |
| `StrategyMerge.ApplySettings` | art-api/internal/strategy/service.go:108-116 | One strategy's settings overwrite what is there, and the options they set, whatever order the map gives its keys in. |
| `StrategyMerge.SettingWinner` | art-api/internal/strategy/service.go:99-116 | A key is set exactly when a live matching strategy defines it, by one that no other definer exceeds, the last in input order among equals. |
| `StrategyMerge.OptionWinner` | art-api/internal/strategy/service.go:99-116 | An option is blank if no live strategy sets it, else it has a value set by one that no other setter exceeds. |
| `StrategyMerge.OrderIndependent` | art-api/internal/strategy/service.go:99-107 | With distinct precedence the merge order, and so every setting, does not depend on input order. |
| `StrategyMerge.OptionsDetermined` | art-api/internal/strategy/service.go:108-116 | Option values too are determined when no strategy sets one option through two keys. |
| `StrategyMerge.SortedIsStable` | art-api/internal/strategy/service.go:99-107 | Strategies of equal precedence keep their input order. |
| `StrategyMerge.PrecedenceIs` | art-api/internal/strategy/service.go:99-107 | Priority decides first, then the narrower scope from device to global, then the later change. |
| `StrategyMerge.ScopesMatch` | art-api/internal/strategy/service.go:159-174 | Which devices a strategy of each scope is for. |
| `StrategyMerge.SwitchOptions` | art-api/internal/strategy/service.go:202-213 | Which client switch a setting stands for. |
| `StrategyMerge.MoreSwitchOptions` | art-api/internal/strategy/service.go:214-233 | Which client switch a setting stands for. |
| `StrategyMerge.InvertedOptions` | art-api/internal/strategy/service.go:222-229 | Two switches are the other way round at the client. |
| `StrategyMerge.ServerOptions` | art-api/internal/strategy/service.go:234-239 | Server settings are passed on trimmed. |
| `StrategyMerge.NoOption` | art-api/internal/strategy/service.go:240-266 | Exactly which keys and values stand for no client option. |
| `StrategyMerge.TrimSpaceTrims` | art-api/internal/strategy/service.go:262-266 | Trimming takes spaces off both ends and nothing else. |
| `StrategyMerge.NewestIsNewest` | art-api/internal/strategy/service.go:87-89 | The reported change time is the newest of all matching strategies, live or not. |
| `StrategyMerge.MatchedAreLive` | art-api/internal/strategy/service.go:95-109 | Exactly the matching, enabled, undeleted strategies count, and their identifiers are reported in merge order. |

## Left out

- Relay and device rows in the agreement theorem: snapshots rewrite relay health and several device writes publish nothing, so the tables and the log differ by design; such events only advance the revision here.
- API restarts inside a replication run: a run covers one API process over existing tables, and a node may enter it with anything an earlier process left.
- A cache file that cannot be read or written: a crash returns to what was last saved.
- JSON and protobuf encoding and decoding, the serialized-size limit of the outbox file (a refused write), and sub-millisecond parts of session expiry.
- A multi-byte character split across stream chunks: the reader validates each chunk alone, so chunks are cut at characters.
- Token signatures, audiences and password handling.
- The server's own ordering of strategies (art-core/src/auth/cache.rs lines 404-440), whose tie-breaks run the other way; it is not equated with the API's.
- The legacy UDP control mode, socket handling, byte relaying, websockets and reconnect delays.
- The difference between a rename that is visible and one that would survive power loss.
- The operator-facing parts: web console, address books, devices, builds, audit, automation, backups and webhooks.
