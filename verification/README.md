# A verified model of zmail's mirror, scheduler and finance core

zmail mirrors Gmail mailboxes into a local corpus, runs its work through a job table with lanes and leases, classifies
mail, and folds finance evidence into a ledger with rollups and tax forms. This project models the parts of it that
have state and order in them, and proves what each promises for every input and every run. `dafny verify
dfyconfig.toml` checks all of it.

| file | what it models |
|---|---|
| `Mailbox.dfy` | the remote mailbox under the UID rules of section 2.3.1.1 of RFC 9051, and the windowed reads of `lib/imap.ts` |
| `MailStore.dfy` | sources, messages and conversation rollups as `lib/sync.ts` writes them (a class) |
| `MirrorMachine.dfy`, `MirrorProofs.dfy` | the full, delta, backfill and reconcile runs as atomic steps, interleaved with the outside world and crashes; the invariant and what follows from it |
| `MirrorRuns.dfy` | the same runs as methods over cursor fields, recording every state; each record is a run of the machine |
| `JobRules.dfy`, `JobSafety.dfy`, `JobTable.dfy` | lanes, locks, claims, leases, the idempotent queue (a class) and the safety of the table |
| `JobWindows.dfy` | when the 25-row window of a claim loses nothing, decided by the caps |
| `BackfillChain.dfy` | the sync jobs of `lib/worker.ts` on top of both: the backfill chain, connect, pause, resume and the startup scan |
| `MirrorSystem.dfy`, `LeaseRace.dfy` | the job table and the mirror in one system with live processes, and what an expired lease of a live run does to it |
| `Ledger.dfy`, `LedgerPhases.dfy` | the dedupe fold of `lib/finance-knowledge.ts` and its two phases |
| `Buckets.dfy`, `Rollups.dfy`, `RollupProofs.dfy` | the one-pass rollup view of `lib/finance-rollups.ts` |
| `Tax.dfy`, `Csv.dfy` | mixed-use splits, Schedule C, and the CSV printer of `lib/tax-reporting.ts` |
| `Sse.dfy` | the chunked event-stream reader of `scripts/_sse.ts` |
| `PageDedupe.dfy` | page selection and dedupe of `lib/finance-upload.ts` |
| `ConcurrentPool.dfy`, `FinanceBacklog.dfy` | `runConcurrent` and the self-re-queueing finance backlog of `lib/worker.ts` |
| `Common.dfy`, `JsText.dfy` | filtering, sorting, trimming and joining |

## How the mirror is put together

A state is the remote mailbox, the cursor row, the source rows and what the run in flight holds in its local
variables. A step is one database transaction, one mailbox read, one outside event (append, expunge, a new
UIDVALIDITY) or a crash. `MirrorProofs.MirrorCoverage` holds in every reachable state. The class `MirrorRuns.Mirror`
has the control flow of the TypeScript functions; before every awaited operation it lets any number of outside events
happen and may break, which it counts, and it keeps a ghost record of every state it passes through. `Mirror.Valid()`
says that this record is a run of the machine, so the theorems about runs hold of it (`MirrorRuns.Mirror.CoveredNow`).

That one run is in flight per account comes from the `sync:<account>` lock of the job table. `MirrorSystem.dfy` puts the
table, the mirror and the live processes into one system and proves that, as long as no lease of a live run expires, one
process at most is at work and the mirror goes through a run of the machine (`MirrorSystem.SystemRefinesMachine`).

## What the code does differently from what one might expect

- Coverage is exact, and holds for precisely the messages whose source the server returned: a fetched message without
  a source is dropped (lib/imap.ts:50-81) while the cursors move past it. `MirrorProofs.BodylessMessageIsPassedOver`
  is a run.
- A fetched message whose remote id is not a plain file name makes its ingest throw; the run ends there and the cursors
  stay. Coverage is not harmed, but no run over that window finishes while the message stays and the epoch lasts
  (`MirrorProofs.UnusableIdStopsRuns`; `MirrorProofs.NamelessMessageStopsRun` is such a run).
- A claim looks at the first 25 eligible rows of each lane. Whether that can hide a job that could run is decided by the
  caps alone (`JobWindows.WindowLosesNothing`, `JobWindows.ClaimsConserveWork`): with a lane's cap cut to the global one
  and less one for the job claimed, the sync lane is safe up to 8, the LLM lanes up to 24, the materialize lane only at
  0, and the other lanes always. The caps of zmail.toml are safe but for materialize (`JobWindows.ShippedCapsSuffice`).
- Lock names are built from account ids without escaping: an account called `materialize`, `export-report` or
  `mapping-candidates` would share a lock with another lane (`JobRules.BorrowedLockContends`). The connect action gives
  out random UUIDs, so only an id from elsewhere can be one of these.
- A request for the kind of job that is running is absorbed by its open row and lost when that row completes
  (`BackfillChain.RunningRowAbsorbsRequests`). So a delta run's request for its own continuation is lost, and so can
  be a resume or a sign-in that arrives while the row of a skipped full or backfill job is still open.
  `ResumeDuringBackfill`, `ResumeDuringFull`, `SignInDuringBackfill` and `SignInDuringFull` (methods of
  `BackfillChain.Worker`) say exactly when, by what is known before: otherwise pending history waits for the next
  startup scan or resume, and a bootstrap is not made up for. `BackfillChain.LoseFirstSync` is a whole run. The mail
  of that account is still mirrored: connecting seeds an all-null cursor row, and the deltas that its watcher asks for
  fetch upward from UID 1 (`MirrorProofs.DeltasMirrorFromOne`).
- Apart from that, and from jobs recorded as failed, the chain never stalls (`BackfillChain.Worker.LifeOfAccount`).
- A first bootstrap that fails leaves a cleared cursor row, which the startup scan does not pick up
  (`BackfillChain.Worker.QueuePendingBackfills`, `BackfillChain.Worker.LoseFailedBootstrap`); resuming the account does.
- Heartbeats keep the lease of a live run. If one is late by more than the lease, the row is queued and claimed again,
  and two runs are in flight. Coverage can then be lost: a reconcile run that fetched its ids before a message came
  back tombstones the row a delta run has just written (`LeaseRace.ExpiredLeaseLosesCoverage`).
- Rollup keys join year, source kind and category with colons. Buckets equal filter-and-sum exactly when no two labels
  share a key; source kinds without colons suffice, and one with a colon can merge two categories. The kinds and primary
  categories that lib/schemas.ts admits have none, so the program's own buckets are exact without further conditions
  (`RollupProofs.SchemaBucketsAreFilterAndSum`).
- The summary counts import documents that no bucket counts: those without a readable period end.
- An import row without transaction id and artifact digest makes a composite key of its own; the composite keys are
  otherwise fixed by the e-mail phase.
- CSV headers are not quoted, so a table reads back as itself exactly when its headers need no quoting.
- The pending test of the finance backlog reports one kind of row the work filter skips: an unreadable message blocked
  under an older result schema (`FinanceBacklog.OldBlockIsStuck`). The chain still ends, one job later. It can also end
  while the filter would still pick rows, when none of these is pending (`FinanceBacklog.MisjudgedRowsEndTheChain`);
  `FinanceBacklog.JobsNeeded` is the exact number of jobs.
- `runConcurrent` ends a loop at a falsy item: an item is done exactly when fewer falsy items than loops come before it
  (`ConcurrentPool.PoolReports`). Its callers pass rows, which are truthy.

## Model

| member | source | states |
|---|---|---|
| RemoteMailbox.FetchMessageRange | lib/imap.ts:96-128 | the batch is the present messages of the range that have a source, each once, in ascending UID order, whatever order the server streams them in |
| RemoteMailbox.FetchMessageWindowDescending | lib/imap.ts:130-138 | the same for the window of at most `windowSize` UIDs that ends at `endUid`, in descending order |
| MailStore.Aggregate | lib/sync.ts:146-183 | the loop over messages returns the count and the earliest and latest known reception time of the conversation, nulls skipped |
| MailStore.RestrictStep | lib/sync.ts:146-183 | seeing one more message changes a conversation's aggregate by that message alone |
| MailStore.OutsiderKeepsRollup | lib/sync.ts:211-255 | a message outside a conversation before and after its update leaves that rollup in agreement |
| MailStore.OthersStayThreaded | lib/sync.ts:211-255 | placing one message leaves every other message in the conversation of its own thread |
| MailStore.Store.EnsureConversationId | lib/sync.ts:98-144 | a blank thread has no conversation; any other has the one whose trimmed thread matches, opened empty when there is none |
| MailStore.Store.RefreshConversationRollup | lib/sync.ts:146-183 | the conversation agrees with the aggregate of its messages afterwards, or is gone if it has none; all others keep their thread, and nothing changes if it agreed before |
| MailStore.Store.ApplyParsedMessageUpdate | lib/sync.ts:211-255 | the message and its source are rewritten, and every rollup agrees again though the message may have moved |
| MailStore.Store.IngestMessage | lib/sync.ts:1529-1716 | all four paths: refused exactly for an unusable remote id; otherwise the source row is active with the fetched UID, epoch and digest, the message sits in the conversation of its trimmed thread id, opened if need be, or in none when that is blank, the message id is kept or new, known content keeps its time, no other source or message changes, and every rollup agrees |
| MailStore.RemoteIdsListed | lib/config.ts:32-37 | a remote id is usable exactly when it is not empty and has only letters, digits, underscores, dots and hyphens |
| JsText.TrimCuts | lib/sync.ts:1543 | trimming cuts white space off both ends, all of it and nothing else |
| MailStore.Store.ReextractStoredMessage | lib/sync.ts:281-371 | a recovered message gets its parsed time and new digest, nothing else moves, every rollup agrees; a failed recovery changes nothing |
| MailStore.Store.TombstoneSource | lib/sync.ts:1486-1496 | only the active mark of one source row changes |
| MirrorProofs.NextKeepsInv | lib/sync.ts:646-1497 | every step of every run, every outside event and a crash keep the mirror's invariant |
| MirrorProofs.RunKeepsInv | lib/sync.ts:646-1497 | so it holds in every reachable state |
| MirrorProofs.MirrorCoverage | lib/sync.ts:731-862 | in every reachable state, a present message inside the claimed interval of the current epoch has an active source carrying its UID exactly when the server returns its source; and backfill_next_uid is earliest − 1 above UID 1 and null otherwise |
| MirrorProofs.BodylessMessageIsPassedOver | lib/imap.ts:50-81 | a run that claims a UID whose message came without a source and is not mirrored |
| MirrorProofs.UnusableIdStopsRuns | lib/sync.ts:1529-1716 | while a present message with a source has an unusable remote id, no run over its window writes its cursors, and no claimed interval reaches it |
| MirrorProofs.NamelessMessageStopsRun | lib/sync.ts:731-793 | a run that fetched a message without a remote id and can neither ingest it nor finish |
| MirrorProofs.DeltasMirrorFromOne | lib/sync.ts:919-1126 | on a seeded cursor row, delta runs alone mirror the mailbox upward from UID 1, a window at a time, with nothing pending below |
| MirrorProofs.IntervalOnlyGrows | lib/sync.ts:835-848 | between two bootstraps the claimed interval only grows, through any interleaving |
| MirrorProofs.BackfillsVisitPendingWindows | lib/sync.ts:1216-1304 | the backfills a bootstrap-free stretch completes are the pending windows in order, none skipped or repeated |
| MirrorProofs.PendingWindowsTile | lib/sync.ts:1281-1304 | these windows tile [1, backfill_next_uid] from the top, each full but the last, without gap or overlap |
| MirrorProofs.PendingWindowCount | lib/sync.ts:1216-1217 | their number is next / window rounded up |
| MirrorProofs.BackfillRunsNeeded | lib/sync.ts:1216-1304 | a stretch that drains the history completes exactly that many backfills |
| MirrorProofs.ReconcileMatchesMailbox | lib/sync.ts:1450-1498 | after a reconcile the active rows of the window are the messages that were there when the ids were read |
| MirrorRuns.Mirror.RunFullSync | lib/sync.ts:646-917 | skipped exactly when disabled; it breaks exactly when one of its awaits does, and otherwise finishes, finds nothing new or is refused by an unusable id; for a mailbox it passed through, a finished one has moved the head cursor of a resumable row up by one window, or claims the newest window with the rest pending, every column given; it fetched as many messages as the window had with a source, and asks for a delta exactly when the head is further on; a refused one left a resumable row alone and any other all null |
| MirrorRuns.Mirror.BootstrapRun | lib/sync.ts:731-793 | cursors are nulled first and written only after the whole window is ingested |
| MirrorRuns.Mirror.ResumeRun | lib/sync.ts:794-862 | the head cursor moves by one bounded window or not at all |
| MirrorRuns.Mirror.RunDeltaSync | lib/sync.ts:919-1126 | which of its ends a run comes to, by its awaits, the row, the epoch and the head it read; only a finished run moves the row: the head cursor up by one window or to the head, the low end set if there was none, the other columns kept; the fetched count is that of the window, and more is reported exactly when the head is further on |
| MirrorRuns.Mirror.RunBackfillSync | lib/sync.ts:1128-1357 | only a finished run moves the row, the low cursor down by one window or to UID 1 and nothing else, the epoch included; the fetched count is that of the window; the reported next UID is the stored one; a refused run met an unusable id |
| MirrorRuns.Mirror.RunReconcile | lib/sync.ts:1359-1527 | skipped exactly when disabled or nothing is claimed, and ended by an epoch change exactly when there was one; a finished run takes the active mark of exactly the active rows of the stored epoch with a UID in the claimed interval that name no message found there, keeps every other row and column, and reports how many; then the window mirrors that mailbox |
| MirrorRuns.Mirror.CompareAll | lib/sync.ts:1481-1498 | the loop over local sources tombstones the examined rows without a remote id and counts them, however it is interleaved |
| MirrorRuns.Mirror.CoveredNow | lib/sync.ts:646-1527 | at any moment between calls the mirror covers what it claims and the cursor row has its shape |
| JobRules.LockNamesLane | lib/jobs.ts:79-154 | the text of a lock name tells its lane exactly when the job does not borrow a reserved name |
| JobRules.LocksOfLanesDisjoint | lib/jobs.ts:114-154 | jobs of different lanes never contend for a lock unless an account id is a reserved word |
| JobRules.BorrowedLockContends | lib/jobs.ts:114-154 | a finance classification shares its lock with some job of another lane exactly when its account id is a reserved word |
| JobRules.LocksExclude | lib/jobs.ts:114-154 | two jobs exclude each other exactly when they do the same work (sync, root or finance classification, upload, review, ledger upkeep, reporting, mapping, overseeing, category upkeep), and for the same scope unless that work is shared, ordinary account ids assumed |
| JobSafety.QuietChangeKeepsSafe | lib/jobs.ts:404-430 | requeueing, lease extension, progress, completion and failure keep the table safe |
| JobSafety.EnqueueKeepsSafe | lib/jobs.ts:289-402 | a queued row for a scope without an open row keeps the table safe |
| JobSafety.ClaimKeepsSafe | lib/jobs.ts:436-528 | claiming a compatible row below the global cap keeps the caps, the locks and the leases |
| JobSafety.OneSyncPerAccount | lib/jobs.ts:114-122 | in a safe table two running sync jobs of one account are the same row |
| JobSafety.SafeInEveryRun | lib/jobs.ts:289-672 | in every state of every run: unique ids and open scopes, disjoint locks, leased running rows, global and lane caps |
| JobWindows.CompatibleWithinLane | lib/jobs.ts:436-450 | a queued row is compatible exactly when its own lane has room and no running row of that lane holds its lock |
| JobWindows.SufficientCaps | lib/jobs.ts:474-500 | under the criterion on the caps the window holds, for every compatible candidate of its lane, a compatible one that is not later, whatever the table holds |
| JobWindows.CrowdedTableHides | lib/jobs.ts:474-500 | where the criterion fails there is a safe table whose window holds no compatible row although one is queued |
| JobWindows.WindowLosesNothing | lib/jobs.ts:474-500 | so a lane's window loses nothing in any safe table exactly when its caps meet the criterion |
| JobWindows.WorkConserving | lib/jobs.ts:452-500 | in lanes that meet it or have at most 25 candidates, null means nothing eligible is compatible anywhere, and a claim is a global minimum by priority and creation time |
| JobWindows.ClaimsConserveWork | lib/jobs.ts:452-500 | claims do so in every safe table exactly when the caps of every lane meet the criterion |
| JobWindows.ShippedCapsSuffice | zmail.toml:16-25 | under the shipped global cap every lane but materialize meets it, and with the shipped lane caps materialize does not |
| JobWindows.ScopedInEveryRun | lib/jobs.ts:289-672 | a table that is only filled with well-scoped rows is safe and well scoped in every state of every run |
| JobTable.Table.FindOpenJob | lib/jobs.ts:272-287 | finds the oldest open row of the scope exactly when there is one |
| JobTable.Table.QueueJob | lib/jobs.ts:289-360 | appends a queued row of the request, in the lane of its kind and at priority 100 unless it says otherwise, with no lease, attempt, error or count, or is refused exactly when the scope has an open row; the table stays well scoped exactly when the request is |
| JobTable.Table.QueueJobIdempotent | lib/jobs.ts:362-402 | afterwards the scope has an open row and its id is returned; the table grows only if there was none |
| JobTable.Table.RequeueExpiredJobs | lib/jobs.ts:404-430 | exactly the running rows whose lease ended go back to the queue without owner and lease, with the error they had or "lease expired"; every other row and column stays; they are counted, and no running row is left with such a lease |
| JobTable.Table.ExtendJobLease | lib/jobs.ts:549-560 | only the lease of one row changes |
| JobTable.Table.UpdateJob | lib/jobs.ts:562-634 | any status and any fields: those not given keep their values, a finished row loses owner and lease, and the table stays safe when the change starts and opens nothing |
| JobTable.Table.SelectLaneWindow | lib/jobs.ts:474-488 | the window is a possible answer of the claim query: due rows of the lane, sorted, and nothing left out precedes anything in it |
| JobTable.LaneWindowShows | lib/jobs.ts:474-488 | such a window has at most 25 rows, all queued and due, by priority and then age, and leaves a due row out only if it has 25 that do not come after it |
| JobTable.FewDueRowsLoseNothing | lib/jobs.ts:474-488 | a lane with at most 25 due rows loses nothing, whatever its cap |
| JobTable.Table.ClaimNextJob | lib/jobs.ts:452-547 | one due row that neither the caps nor a running lock holder is in the way of starts running, with a lease of the configured length from now, the given owner, one more attempt, its first start kept and its error cleared, every other row and column as before; or nothing changes; and work is conserved when every lane meets the criterion on the caps or has at most 25 candidates |
| JobTable.ConservingClaimsFirst | lib/jobs.ts:474-500 | a claim that conserves work takes, of the due rows nothing is in the way of, one that comes first by priority and then age, and only takes none if there is none |
| JobTable.Table.ClaimThenRequeue | lib/jobs.ts:404-457 | a claim without a heartbeat keeps its row running through a requeue at any time up to the end of its lease, and loses it to one at any later time |
| BackfillChain.ClosingEmptiesScope | lib/worker.ts:1360-1381 | completing a running row leaves its scope without an open row and every other scope as it was |
| BackfillChain.RunningRowAbsorbsRequests | lib/sync.ts:1069-1075 | a request for the kind that is running is absorbed, and after the row finishes nothing of that kind is open |
| BackfillChain.Worker.SyncAccountFullJob | lib/worker.ts:1246-1303 | its row completes exactly when the job does not break, and counts the messages fetched; it ends as broken exactly when one of its steps broke; a finished one has moved the cursors as a full sync does, and leaves a delta job open whenever the mailbox it read reaches above the interval it claims; a job that ran leaves no bootstrap and no history without an open job, whatever others do meanwhile; so does a skipped one if the account was bootstrapped with its history queued when it started |
| BackfillChain.Worker.SyncAccountDeltaJob | lib/worker.ts:1305-1341 | it keeps the chain however it ends; one that does not break moves the row as a delta run does, completes its job row with the messages it fetched, queues a full job after an epoch change, and leaves no open delta job behind |
| BackfillChain.Worker.SyncAccountBackfillJob | lib/worker.ts:1343-1397 | a finished one has moved the low cursor by one window, and its row counts the messages fetched; completion precedes the idempotent re-queue, so a job that ran leaves the chain intact though others act in between; a skipped one leaves no open backfill, and the chain intact if a full job was open or due or no history was pending when it started |
| BackfillChain.Worker.SyncAccountReconcileJob | lib/worker.ts:1399-1420 | cursors stay, its row counts the source rows that lost their mark, the chain is kept however the job ends, and an epoch change queues a full job |
| BackfillChain.Worker.QueuePendingBackfills | lib/worker.ts:1200-1244 | the startup scan queues exactly when pending history of an enabled account has no open job, and restores the chain exactly when no bootstrap is due without one |
| BackfillChain.Worker.ResumeAccountSync | server/actions.ts:3366-3425 | resuming restores the chain, with a full job when the account was never bootstrapped; it queues nothing when that kind of job is open |
| BackfillChain.Worker.ConnectAccount | server/actions.ts:2525-2650 | signing in seeds an all-null cursor row where there is none, and restores the chain with a full job |
| BackfillChain.Worker.LifeOfAccount | lib/worker.ts:2248-2294 | over any sequence of connects, pauses, resumes, startup scans, requeues, claims and sync jobs, pending history and a due bootstrap of an enabled account have an open job, unless a full or backfill job failed or was skipped where a request can be lost to its row |
| BackfillChain.Worker.ResumeDuringBackfill | lib/worker.ts:1343-1397 | a resume while a backfill row is held survives its close exactly if a full job was open or due or no history was pending |
| BackfillChain.Worker.ResumeDuringFull | lib/worker.ts:1246-1303 | a resume while a full row is held survives its close exactly if the account is bootstrapped |
| BackfillChain.Worker.SignInDuringBackfill | server/actions.ts:2525-2650 | a sign-in while a backfill row is held always survives |
| BackfillChain.Worker.SignInDuringFull | server/actions.ts:2525-2650 | a sign-in while a full row is held survives exactly if the account was bootstrapped with its history queued |
| BackfillChain.Worker.LoseFailedBootstrap | lib/worker.ts:1200-1244 | a failed first bootstrap is not picked up by the startup scan |
| BackfillChain.LoseFirstSync | lib/worker.ts:1246-1303 | connect, pause, claim, resume, complete: the account is enabled, its cursor row all null, and no full job is open |
| MirrorSystem.OneRunInFlight | lib/jobs.ts:404-528 | in every state of every run of table, mirror and processes in which no lease of a live run expires, the table is safe and at most one process works for the account, on a running row |
| MirrorSystem.SystemRefinesMachine | lib/worker.ts:2248-2294 | what the mirror goes through in such a run is a run of the mirror machine, so all that holds of machine runs holds of the system |
| MirrorSystem.SystemCovered | lib/sync.ts:646-1527 | in particular the mirror covers what it claims in every state of the system |
| LeaseRace.ExpiredLeaseLosesCoverage | lib/jobs.ts:404-430 | a run in which a live reconcile run loses its lease, two runs are in flight, and a present message of the claimed interval is not mirrored |
| Ledger.KeepsWinner | lib/finance-knowledge.ts:183-194 | the winner of a merge is the first best candidate of its key by source priority, then readiness |
| Ledger.AddNew | lib/finance-knowledge.ts:196-207 | a first candidate of a key becomes its entry |
| Ledger.Merge | lib/finance-knowledge.ts:209-225 | a merge keeps the best entry, re-points the loser's sources and records the loser once |
| Ledger.NothingKeptIsSuppressed | lib/finance-knowledge.ts:212-225 | no source dangles and no surviving entry is named as suppressed |
| Ledger.KeptEntriesDetermined | lib/finance-knowledge.ts:196-226 | the kept entries are a function of the candidate list |
| Ledger.Rebuild.AddOrMerge | lib/finance-knowledge.ts:196-226 | after each candidate: one entry per key, chosen by the names of the sources, one source per candidate pointing at it, every dropped candidate named exactly once; older evidence only changes its target |
| Ledger.KeptByName | lib/finance-knowledge.ts:170-194 | the kept entry of a key is a statement or csv candidate if there is one, else an ofx or pdf one, else an e-mail one; within that class it is the first ready candidate, or the first one if none is ready |
| Ledger.StatusByWhatIsMissing | lib/finance-knowledge.ts:138-168 | an entry is blocked exactly when it is no ledger matter or mixed without a percentage, and ready exactly when it is not, comes from a trusted source, and lacks neither amount, date, counterparty, accounts nor currency |
| Ledger.Rebuild.Repoint | lib/finance-knowledge.ts:212-216 | the in-place pass moves exactly the sources of one entry to another |
| LedgerPhases.RebuildFinanceKnowledge | lib/finance-knowledge.ts:253-515 | the fold of all e-mail transactions, then all import rows keyed against what is there by then; under each key stands the candidate chosen by the names of the sources; each source keeps its origin |
| LedgerPhases.EmailKeyText | lib/finance-knowledge.ts:71-121 | the exact text of the key of an e-mail transaction: its id with institution and account, else its composite of book, account, day, amount, currency and counterparty, else its message |
| LedgerPhases.ImportKeyText | lib/finance-knowledge.ts:419-445 | the exact text of the key of an import row: its id, else a composite that an entry already has, else its place in the artifact |
| LedgerPhases.CompositesAgree | lib/finance-knowledge.ts:71-87 | two composites are equal exactly when all six parts are, unless a part holds a bar |
| LedgerPhases.EmailKeyKind | lib/finance-knowledge.ts:89-121 | a transaction id decides the key of an e-mail transaction, and only without one does a composite of substance |
| LedgerPhases.OwnKeyKind | lib/finance-knowledge.ts:89-121 | an import row is keyed by its transaction id, else by its place in the artifact |
| LedgerPhases.ImportRowsKeptApart | lib/finance-knowledge.ts:106-110 | rows without transaction ids share a key exactly when they are the same row of the same artifact |
| LedgerPhases.OwnKeyIsComposite | lib/finance-knowledge.ts:89-121 | an import row makes a composite key exactly without transaction id and digest and with a composite of substance |
| LedgerPhases.CompositeKeysFixed | lib/finance-knowledge.ts:419-445 | the composite keys are those of the e-mail phase exactly when each such row finds its composite among them |
| LedgerPhases.ImportLandsInEmailEntry | lib/finance-knowledge.ts:438-445 | an import row without transaction id whose composite an e-mail entry has lands in that entry, and an entry under its own import key is kept only on account of another row |
| Buckets.ChosenBucketsAddUp | lib/finance-rollups.ts:156-229 | the buckets picked by a property of keys add up to the postings that have it |
| Buckets.BucketsMatchLabels | lib/finance-rollups.ts:163-164 | every bucket is the filter-and-sum of its own label exactly when no two labels share a key |
| Rollups.BucketMap.Post | lib/finance-rollups.ts:164-195 | get, add and set keep one bucket per key, labelled by its first posting and holding the sum of all |
| Rollups.BuildFinanceRollupView | lib/finance-rollups.ts:156-309 | both bucket lists group the postings of the eligible entries and dated documents, in order, and the summary sums them |
| Rollups.NewestFirst | lib/finance-rollups.ts:276-305 | in such a list newer years come first, source kinds are in order within a year, and categories within a kind |
| Rollups.YearOfDigits | lib/finance-rollups.ts:6-12 | four leading digits make the year, unless they are all zero |
| Rollups.NoYearWithoutDigits | lib/finance-rollups.ts:6-12 | without four of them there is no year |
| RollupProofs.SummaryIsFilterAndSum | lib/finance-rollups.ts:243-278 | the summary has the absolute amounts of the income and of the expenses that are ready or up for review, their difference, their number, how many of them are uncategorized, and the number of documents |
| RollupProofs.YearlyBucketIsFilterAndSum | lib/finance-rollups.ts:160-195 | every measure of a yearly bucket is that of the income and expenses that are ready or up for review under its year, source kind and category, and of the documents filed there, as long as keys keep labels apart |
| RollupProofs.SubcategoryBucketIsFilterAndSum | lib/finance-rollups.ts:197-218 | the same of a subcategory bucket's inflow, outflow, net and count |
| RollupProofs.YearlyBucketsAddUpToSummary | lib/finance-rollups.ts:221-278 | the yearly buckets add up to the summary in every measure exactly when every document has a readable period end |
| RollupProofs.SubcategoryBucketsAddUpToSummary | lib/finance-rollups.ts:197-278 | the subcategory buckets add up to the summary's inflow, outflow, net and count |
| RollupProofs.SubcategoriesAddUpToPrimary | lib/finance-rollups.ts:197-218 | the subcategory buckets of a primary category add up to its yearly bucket |
| RollupProofs.NetIsInflowMinusOutflow | lib/finance-rollups.ts:178-188 | net is inflow minus outflow in every bucket and in the summary |
| RollupProofs.YearlyBucketsMatchLabels | lib/finance-rollups.ts:163-164 | the exactness criterion for the yearly list |
| RollupProofs.SubcategoryBucketsMatchLabels | lib/finance-rollups.ts:197-198 | the exactness criterion for the subcategory list |
| RollupProofs.KeysKeepLabelsApart | lib/finance-rollups.ts:163-198 | keys determine labels when source kinds, and for subcategories categories, hold no colon |
| RollupProofs.ColonlessKindsSuffice | lib/finance-rollups.ts:163-198 | so colon-free source kinds are enough for exact buckets |
| RollupProofs.SchemasKeepLabelsApart | lib/schemas.ts:479-499 | with the primary categories of the schema, and the source kinds of lib/schemas.ts:960-965 or e-mail, no two labels share a key |
| RollupProofs.SchemaBucketsAreFilterAndSum | lib/finance-rollups.ts:156-229 | so every bucket of either list is the filter-and-sum of its label |
| RollupProofs.ColonMergesBuckets | lib/finance-rollups.ts:163-164 | two categories that would share a bucket if a source kind held a colon |
| Tax.MixedSplit | lib/tax-reporting.ts:216-236 | business and personal share of a mixed row add up to its amount, or to one more exactly when the business share has fractional part one half |
| Tax.SharesWithinAmount | lib/tax-reporting.ts:216-236 | neither share leaves the range from zero to the amount |
| Tax.SharesByBook | lib/tax-reporting.ts:216-236 | a business or personal row counts in full on its side and not on the other, a mixed row by its percentage rounded to the nearest whole number, the upper one of two, and any other row not at all |
| Tax.LinesHoldTheirRows | lib/tax-reporting.ts:341-397 | each Schedule C expense line holds exactly the business rows whose category and subcategory belong to it |
| Tax.LineReportsItsRows | lib/tax-reporting.ts:254-397 | each expense line reports exactly the accepted business and mixed rows that belong to it, the sum of their business shares and their ids in order, and gross receipts the income |
| Tax.LinesShareNoRow | lib/tax-reporting.ts:341-397 | no ledger row is on two expense lines |
| Tax.OtherExpensesAreTheirDetails | lib/tax-reporting.ts:390-405 | other expenses are the sum of their four details |
| Tax.DetailsReportTheirRows | lib/tax-reporting.ts:357-405 | the four details are named after their categories, and each reports exactly its rows |
| Tax.NetProfitConserves | lib/tax-reporting.ts:447-470 | net profit is the business share of the accepted income minus that of the listed expenses, each once, and minus all expenses exactly when the unlisted come to nothing |
| Csv.CellRoundTrip | lib/tax-reporting.ts:104-110 | a printed cell is read back as it was, by the quoting rules of section 2 of RFC 4180 |
| Csv.CellText | lib/tax-reporting.ts:104-110 | a cell is printed as it is exactly when it holds no comma, quote or line break, and between quotes otherwise |
| Csv.RawCellReadBack | lib/tax-reporting.ts:112-118 | an unquoted header is read back as itself only if it needs no quoting |
| Csv.PrintRoundTrip | lib/tax-reporting.ts:104-118 | a printed table is read back cell by cell exactly when no header holds a comma, quote or line break |
| Csv.PrintInjective | lib/tax-reporting.ts:104-118 | two tables with plain headers print the same text only if headers and rows are equal |
| Sse.ParseSseBlock | scripts/_sse.ts:7-43 | the loop finds the last id, the last event name and all data lines, and nothing in a blank block |
| Sse.SplitUndoesJoin | scripts/_sse.ts:8-10 | the lines of a block are the lines it was made of |
| Sse.SplitUndoesBreaks | scripts/_sse.ts:8-10 | so they are with any mix of the two kinds of line break between them |
| Sse.TrimmedLinesAre | scripts/_sse.ts:8-11 | the lines that count are those not blank, trimmed at the end, in order |
| Sse.SeparatorIsText | scripts/_sse.ts:67-70 | a separator is one of the four texts of two line breaks, and matched in full |
| Sse.EventRoundTrip | scripts/_sse.ts:7-43 | an event written in the field format is read back as it was |
| Sse.NextBlockStays | scripts/_sse.ts:67-70 | a separator found in a prefix stays the first one with the same length, whatever follows |
| Sse.DrainBuffer | scripts/_sse.ts:67-78 | the inner loop emits the complete blocks of the buffer and keeps the rest |
| Sse.ConsumeSse | scripts/_sse.ts:57-79 | what is emitted is what the text read so far yields at once |
| Sse.ChunkIndependence | scripts/_sse.ts:57-79 | any two ways to cut a text into chunks give the same events and the same waiting text |
| Sse.UnterminatedBlockDiscarded | scripts/_sse.ts:62-66 | the text before an unterminated last block yields the same events, as section 9.2.6 of the WHATWG HTML Standard asks |
| PageDedupe.SelectPages | lib/finance-upload.ts:882-911 | a page is selected exactly when it or a neighbour is positive, or among the best three when none is |
| PageDedupe.SelectionByScores | lib/finance-upload.ts:890-905 | if a page scores 0.28 or more, the pages at and next to such pages are chosen and no other; else three, or all of fewer, that no page left out outscores |
| PageDedupe.VerdictsDetermined | lib/finance-upload.ts:913-942 | what becomes of each page is determined by the pages |
| PageDedupe.VerdictByPages | lib/finance-upload.ts:913-942 | a selected page is dropped exactly when an earlier selected page has its hash, or else an earlier kept page is more than 0.95 similar |
| PageDedupe.SomePageKept | lib/finance-upload.ts:913-942 | at least one selected page is kept |
| PageDedupe.KeptPagesDiffer | lib/finance-upload.ts:913-942 | no two kept pages share an image hash or are too similar |
| PageDedupe.DroppedPageReachesKept | lib/finance-upload.ts:916-936 | a dropped page reaches an earlier kept page in at most two duplicate links |
| PageDedupe.DedupePages | lib/finance-upload.ts:913-942 | the in-place pass keeps a page exactly when no earlier selected page has its hash and no kept page is too similar, and notes why it dropped the others |
| PageDedupe.ApplyGate | lib/finance-upload.ts:882-942 | from a non-empty page list at least one page stays selected |
| ConcurrentPool.ExactlyOnce | lib/worker.ts:115-149 | under every interleaving no item is given to two workers, and a given item is in one worker or reported once |
| ConcurrentPool.PoolReports | lib/worker.ts:115-149 | when all loops have ended, an item was reported, once, exactly if it is truthy and fewer falsy items than loops come before it; counters equal reports |
| ConcurrentPool.EveryItemDone | lib/worker.ts:122-148 | so every truthy item is done exactly when none has that many falsy items before it |
| ConcurrentPool.PoolFinishes | lib/worker.ts:122-148 | with fewer falsy items than loops the counters count every truthy item |
| ConcurrentPool.StarvedItemIsNeverGiven | lib/worker.ts:126-129 | an item behind as many falsy ones as loops is never given out, in any state of any run |
| ConcurrentPool.EveryStepProgresses | lib/worker.ts:122-148 | every step brings the end nearer |
| ConcurrentPool.NoDeadlock | lib/worker.ts:122-148 | a loop that has not ended can always step |
| ConcurrentPool.RunCanFinish | lib/worker.ts:115-149 | any run without a failing callback extends to a finished one |
| FinanceBacklog.PendingIsSelected | lib/worker.ts:1009-1028 | a pending row is picked by the work filter unless it is an unreadable message blocked under an older schema |
| FinanceBacklog.PendingAndPicked | lib/worker.ts:1009-1028 | field by field, when a row is not pending, and when the work filter passes it over |
| FinanceBacklog.OldBlockIsStuck | lib/worker.ts:1009-1028 | such a message, with everything else current, is pending and never picked |
| FinanceBacklog.SelectedIsPending | lib/worker.ts:1874-1901 | a picked row that is not pending has a head whose status disagrees with whether it parses |
| FinanceBacklog.ClassifiedIsCurrent | lib/finance-intel.ts:907-924 | whatever the model said, a classified row is neither pending nor picked again |
| FinanceBacklog.PersistedColumns | lib/secondary.ts:81-146 | the head a classification leaves carries the content, registry, prompt and schema now in use; it is blocked exactly for an unreadable message, and else up for review exactly when the model was unsure or its output was blocked |
| FinanceBacklog.OneJobFewer | lib/worker.ts:2094-2126 | one completed job lowers the number of jobs the chain needs by one, or ends it |
| FinanceBacklog.AllPickedPending | lib/worker.ts:2094-2126 | when every picked row is pending the chain needs n / 100 jobs, rounded up and at least one, and one more for an old block |
| FinanceBacklog.MisjudgedRowsEndTheChain | lib/worker.ts:1009-1028 | 101 picked rows of which none is pending need one job, which leaves one of them |
| FinanceBacklog.Account.ProcessBatch | lib/worker.ts:1957-2066 | a batch attempts the first min(100, n) of the n picked rows and no other; it makes at least its successes current, and all of them if none fails |
| FinanceBacklog.Account.ClassifyBacklogJob | lib/worker.ts:2068-2126 | a job fails exactly when an item does; one without errors lowers the number of picked rows by min(100, n) and re-queues exactly while something is pending |
| FinanceBacklog.Account.DrainBacklog | lib/worker.ts:2094-2126 | unless a job fails the chain takes exactly the jobs it needs and leaves nothing pending but such messages; it always ends within one job more than n / 100 rounded up |

## Left out

- One account and one organisation at a time in the mirror and in the worker's sync jobs; the job table itself holds rows of all.
- A message with several source rows (the schema allows them): the preferred source, and so `selectPreferredSource`, is always the one row there is.
- Attachments, bodies, timestamps of runs, account status texts, tokens, watchers, progress, metrics and events.
- Another sync job of the account that is claimed between the completion of a backfill row and the re-queue does not run before the re-queue.
- BackfillChain.Worker.SyncAccountFullJob: queueing of the classification backlog and starting the watcher are not modelled, because they touch neither cursors nor sync jobs.
- A non-empty remote id is taken to name one message of the mailbox, as Gmail's message ids do.
- MirrorRuns.Mirror.RunReconcile: the remote ids and the local rows to examine are read in one step, because nothing but the account's own runs writes mirror columns in between.
- Whether a live run can miss its heartbeats for a whole lease depends on the event loop and the number of worker processes, which are not modelled.
- JobTable.Table.SelectLaneWindow: ties in SQL order may come in any order, so nothing is promised about them.
- JobTable.Table.UpdateJob: metadata, model and request counts are not modelled, because no rule reads them.
- Rollups.BuildFinanceRollupView: locale comparison is any total order that tells different strings apart; strings it calls equal are not modelled.
- Rollups.BuildFinanceRollupView: whether a date text is a real date is not modelled; the year is its first four digits, as in the source.
- LedgerPhases.RebuildFinanceKnowledge: key-part normalisation and upper-casing are parameters, and an entry's content is the part the status rules read.
- Finance patterns, account mappings, readiness reports, Schedule A, workpapers and the Beancount export.
- Tax.MixedSplit: percentages are exact reals, not binary floating point.
- PageDedupe.DedupePages: similarity is any symmetric function of two embeddings, and scores are exact.
- The model calls, prompts and schemas: what a classifier returns is arbitrary.
- The root backlog chain, which re-queues even when every item failed and has no measure.
- `buildPageGroups`, routing of uploads, and the HTTP, OAuth, IMAP and SQLite layers.
