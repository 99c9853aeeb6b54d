/**
 * The sync jobs of lib/worker.ts for one account: how the outcome of a run, the completion of its job row and the
 * re-queueing of further work interact. Everything else that touches the job table or the account's switch may happen
 * before the run, after it, and between the completion of a row and the re-queue that follows. A run reads no job row,
 * and the switch only at its start, so what happens during it amounts to what happens right before or after it. Left
 * out: another sync job of the account that is claimed right after a completion does not run before the re-queue.
 */
module BackfillChain {
  import opened Common
  import opened RemoteMailbox
  import opened MirrorMachine
  import opened MirrorRuns
  import opened JobRules
  import opened JobSafety
  import opened JobWindows
  import opened JobTable

  function AccountRequest(kind: JobKind, account: string): Request {
    Request(kind, "account", account, None, None, None)
  }

  ghost predicate HasOpenSync(rows: seq<JobRules.Job>, kind: JobKind, account: string) {
    HasOpen(rows, kind, "account", account)
  }

  predicate IsSync(kind: JobKind) { LaneForJobKind(kind) == Sync }

  predicate NeedsBootstrap(row: Option<SyncState>) {
    row.None? || !row.value.bootstrapped
  }

  /** A bootstrap that is still due for an enabled account has a full job waiting or at work. */
  ghost predicate BootstrapDue(enabled: bool, row: Option<SyncState>, rows: seq<JobRules.Job>, account: string) {
    enabled && NeedsBootstrap(row) ==> HasOpenSync(rows, SyncAccountFull, account)
  }

  /** And so has history still to be fetched, a full or a backfill job. */
  ghost predicate ChainedIn(enabled: bool, row: Option<SyncState>, rows: seq<JobRules.Job>, account: string) {
    && BootstrapDue(enabled, row, rows, account)
    && (enabled && row.Some? && row.value.next.Some? ==>
          HasOpenSync(rows, SyncAccountFull, account) || HasOpenSync(rows, SyncAccountBackfill, account))
  }

  /** Row `id` is the running job of this kind for the account. */
  ghost predicate Holds(rows: seq<JobRules.Job>, id: nat, kind: JobKind, account: string) {
    exists i :: 0 <= i < |rows| && HeldBy(rows[i], id, kind, account)
  }

  ghost predicate HeldBy(j: JobRules.Job, id: nat, kind: JobKind, account: string) {
    j.id == id && IsRunning(j) && OpenInScope(j, kind, "account", account)
  }

  predicate IsOurs(j: JobRules.Job, account: string) {
    IsSync(j.kind) && j.scopeType == "account" && j.scopeId == account
  }

  ghost predicate SameOutcome(a: JobRules.Job, b: JobRules.Job) {
    b.status == a.status && b.successCount == a.successCount && b.errorCount == a.errorCount
  }

  /**
   * An open sync row of the account stays open, a running one keeps running while a job is at work, a closed one its
   * outcome.
   */
  ghost predicate RowKept(a: JobRules.Job, b: JobRules.Job, busy: bool, account: string) {
    IsOurs(a, account) ==>
      && SameIdentity(a, b)
      && (if IsOpen(a) then IsOpen(b) else SameOutcome(a, b))
      && (busy && IsRunning(a) ==> IsRunning(b))
  }

  ghost predicate RowsKept(before: seq<JobRules.Job>, after: seq<JobRules.Job>, busy: bool, account: string) {
    |before| <= |after| && forall i :: 0 <= i < |before| ==> RowKept(before[i], after[i], busy, account)
  }

  lemma StillHolds(before: seq<JobRules.Job>, after: seq<JobRules.Job>, id: nat, kind: JobKind, account: string)
    requires RowsKept(before, after, true, account) && Holds(before, id, kind, account) && IsSync(kind)
    ensures Holds(after, id, kind, account)
  {
    var i :| 0 <= i < |before| && HeldBy(before[i], id, kind, account);
    assert RowKept(before[i], after[i], true, account);
    assert HeldBy(after[i], id, kind, account);
  }

  lemma StillOpen(before: seq<JobRules.Job>, after: seq<JobRules.Job>, busy: bool, kind: JobKind, account: string)
    requires RowsKept(before, after, busy, account) && HasOpenSync(before, kind, account) && IsSync(kind)
    ensures HasOpenSync(after, kind, account)
  {
    var i :| 0 <= i < |before| && OpenInScope(before[i], kind, "account", account);
    assert RowKept(before[i], after[i], busy, account);
    assert OpenInScope(after[i], kind, "account", account);
  }

  lemma NothingLost(before: seq<JobRules.Job>, after: seq<JobRules.Job>, id: nat, kind: JobKind, account: string)
    requires RowsKept(before, after, true, account) && Holds(before, id, kind, account) && IsSync(kind)
    ensures Holds(after, id, kind, account)
    ensures HasOpenSync(before, SyncAccountFull, account) ==> HasOpenSync(after, SyncAccountFull, account)
    ensures HasOpenSync(before, SyncAccountBackfill, account) ==> HasOpenSync(after, SyncAccountBackfill, account)
    ensures HasOpenSync(before, SyncAccountDelta, account) ==> HasOpenSync(after, SyncAccountDelta, account)
  {
    StillHolds(before, after, id, kind, account);
    if HasOpenSync(before, SyncAccountFull, account) {
      StillOpen(before, after, true, SyncAccountFull, account);
    }
    if HasOpenSync(before, SyncAccountBackfill, account) {
      StillOpen(before, after, true, SyncAccountBackfill, account);
    }
    if HasOpenSync(before, SyncAccountDelta, account) {
      StillOpen(before, after, true, SyncAccountDelta, account);
    }
  }

  lemma StillChained(enabled: bool, row: Option<SyncState>, before: seq<JobRules.Job>, after: seq<JobRules.Job>,
                     busy: bool, account: string)
    requires RowsKept(before, after, busy, account) && ChainedIn(enabled, row, before, account)
    ensures ChainedIn(enabled, row, after, account)
  {
    if HasOpenSync(before, SyncAccountFull, account) {
      StillOpen(before, after, busy, SyncAccountFull, account);
    }
    if HasOpenSync(before, SyncAccountBackfill, account) {
      StillOpen(before, after, busy, SyncAccountBackfill, account);
    }
  }

  /** A queued row opens its own scope and no other. */
  lemma QueuedOne(before: seq<JobRules.Job>, after: seq<JobRules.Job>, id: nat, kind: JobKind, account: string,
                  now: int)
    requires after == before + [NewJob(id, AccountRequest(kind, account), now)]
    ensures forall k: JobKind | k != kind :: HasOpenSync(after, k, account) <==> HasOpenSync(before, k, account)
  {
    forall k: JobKind | k != kind && HasOpenSync(before, k, account) ensures HasOpenSync(after, k, account) {
      var i :| 0 <= i < |before| && OpenInScope(before[i], k, "account", account);
      assert OpenInScope(after[i], k, "account", account);
    }
  }

  /** The table after row `id` reached a terminal status. */
  ghost predicate Closed(before: seq<JobRules.Job>, after: seq<JobRules.Job>, id: nat) {
    && |after| == |before|
    && forall i :: 0 <= i < |before| ==>
         if before[i].id == id then !IsOpen(after[i]) && SameIdentity(before[i], after[i]) else after[i] == before[i]
  }

  /** Closing a running row empties its own scope and leaves every other scope as it was. */
  lemma ClosingEmptiesScope(before: seq<JobRules.Job>, after: seq<JobRules.Job>, id: nat, kind: JobKind,
                            account: string)
    requires KeysUnique(before) && Closed(before, after, id) && Holds(before, id, kind, account)
    ensures !HasOpenSync(after, kind, account)
    ensures forall k: JobKind :: k != kind ==> (HasOpenSync(after, k, account) <==> HasOpenSync(before, k, account))
  {
    var i :| 0 <= i < |before| && HeldBy(before[i], id, kind, account);
    forall k: JobKind | k != kind && HasOpenSync(before, k, account) ensures HasOpenSync(after, k, account) {
      var j :| 0 <= j < |before| && OpenInScope(before[j], k, "account", account);
      assert OpenInScope(after[j], k, "account", account);
    }
    forall j | 0 <= j < |after| ensures !OpenInScope(after[j], kind, "account", account) {
      assert OpenInScope(before[j], kind, "account", account) ==>
        SameScope(before[i], before[j]) && SameScope(before[j], before[i]);
    }
  }

  /**
   * A request for the kind that is running is absorbed by the running row and lost when that row completes: this is
   * why a delta run cannot re-queue itself, and why the backfill job re-queues only after completing.
   */
  lemma RunningRowAbsorbsRequests(rows: seq<JobRules.Job>, i: nat, account: string, finish: Update, now: int)
    requires KeysUnique(rows) && i < |rows| && IsRunning(rows[i])
    requires OpenInScope(rows[i], rows[i].kind, "account", account)
    requires IsOrderly(finish) && finish.finished
    ensures HasOpenSync(rows, rows[i].kind, account)
    ensures !HasOpenSync(rows[i := Updated(rows[i], finish, now)], rows[i].kind, account)
  {
    var after := rows[i := Updated(rows[i], finish, now)];
    assert HeldBy(rows[i], rows[i].id, rows[i].kind, account);
    assert Holds(rows, rows[i].id, rows[i].kind, account);
    ClosingEmptiesScope(rows, after, rows[i].id, rows[i].kind, account);
  }

  /** Somebody else's operation on the table, while a sync job of the account is at work (`busy`) or none is. */
  method OtherOperation(jobs: Table, busy: bool, account: string, now: int)
    requires jobs.Valid()
    modifies jobs
    ensures jobs.Valid() && RowsKept(old(jobs.rows), jobs.rows, busy, account)
  {
    var choice: nat := *;
    if choice == 0 {
      OtherRequest(jobs, busy, account, now);
    } else if choice == 1 {
      OtherClaim(jobs, busy, account, now);
    } else if choice == 2 {
      OtherHeartbeat(jobs, busy, account, now);
    } else if choice == 3 {
      OtherOutcome(jobs, busy, account, now);
    } else if !busy {
      var changes := jobs.RequeueExpiredJobs(now);
    }
  }

  method OtherRequest(jobs: Table, busy: bool, account: string, now: int)
    requires jobs.Valid()
    modifies jobs
    ensures jobs.Valid() && RowsKept(old(jobs.rows), jobs.rows, busy, account)
  {
    var r: Request := *;
    var queued := jobs.QueueJobIdempotent(r, now);
  }

  method OtherHeartbeat(jobs: Table, busy: bool, account: string, now: int)
    requires jobs.Valid()
    modifies jobs
    ensures jobs.Valid() && RowsKept(old(jobs.rows), jobs.rows, busy, account)
  {
    var other: nat := *;
    jobs.ExtendJobLease(other, now);
  }

  method OtherClaim(jobs: Table, busy: bool, account: string, now: int)
    requires jobs.Valid()
    modifies jobs
    ensures jobs.Valid() && RowsKept(old(jobs.rows), jobs.rows, busy, account)
  {
    var owner: Option<string> := *;
    var claimed := jobs.ClaimNextJob(now, owner);
  }

  /** A job of another lane or account reports progress, completes or fails. */
  method OtherOutcome(jobs: Table, busy: bool, account: string, now: int)
    requires jobs.Valid()
    modifies jobs
    ensures jobs.Valid() && RowsKept(old(jobs.rows), jobs.rows, busy, account)
  {
    var other: nat, u: Update := *, *;
    if IsOrderly(u) && forall j :: j in jobs.rows && j.id == other ==> !IsOurs(j, account) {
      var found := jobs.OrderlyUpdate(other, u, now);
    }
  }

  /** Sync row `id` of the account has this status. */
  ghost predicate HasStatus(rows: seq<JobRules.Job>, id: nat, account: string, status: Status) {
    exists i :: 0 <= i < |rows| && RowHasStatus(rows[i], id, account, status)
  }

  ghost predicate RowHasStatus(j: JobRules.Job, id: nat, account: string, status: Status) {
    j.id == id && IsOurs(j, account) && j.status == status
  }

  /** It is complete and counts `count` messages and no errors. */
  ghost predicate CompletedWith(rows: seq<JobRules.Job>, id: nat, account: string, count: nat) {
    exists i :: 0 <= i < |rows| && RowHasStatus(rows[i], id, account, Complete) && Counts(rows[i], count)
  }

  ghost predicate Counts(j: JobRules.Job, count: nat) { j.successCount == count && j.errorCount == 0 }

  /**
   * The row of a job that broke is still running, its process gone, or has failed; that of any other is complete and
   * counts what the run reported.
   */
  ghost predicate Ended(rows: seq<JobRules.Job>, id: nat, account: string, end: RunEnd, count: nat) {
    if end.Interrupted? then HasStatus(rows, id, account, Running) || HasStatus(rows, id, account, Failed)
    else CompletedWith(rows, id, account, count)
  }

  lemma StillCompleted(before: seq<JobRules.Job>, after: seq<JobRules.Job>, busy: bool, id: nat, account: string,
                       count: nat)
    requires RowsKept(before, after, busy, account) && CompletedWith(before, id, account, count)
    ensures CompletedWith(after, id, account, count)
  {
    var i :| 0 <= i < |before| && RowHasStatus(before[i], id, account, Complete) && Counts(before[i], count);
    assert RowKept(before[i], after[i], busy, account);
    assert RowHasStatus(after[i], id, account, Complete) && Counts(after[i], count);
  }

  lemma HeldIsRunning(rows: seq<JobRules.Job>, id: nat, kind: JobKind, account: string)
    requires Holds(rows, id, kind, account) && IsSync(kind)
    ensures HasStatus(rows, id, account, Running) && HasOpenSync(rows, kind, account)
  {
    var i :| 0 <= i < |rows| && HeldBy(rows[i], id, kind, account);
    assert RowHasStatus(rows[i], id, account, Running) && OpenInScope(rows[i], kind, "account", account);
  }

  /** Failing a row that is complete opens and closes nothing. */
  lemma FailingClosedRow(before: seq<JobRules.Job>, after: seq<JobRules.Job>, id: nat, account: string)
    requires KeysUnique(before) && HasStatus(before, id, account, Complete) && Closed(before, after, id)
    requires forall i :: 0 <= i < |before| && before[i].id == id ==> after[i].status == Failed
    ensures HasStatus(after, id, account, Failed)
    ensures forall k: JobKind :: HasOpenSync(after, k, account) <==> HasOpenSync(before, k, account)
  {
    var i :| 0 <= i < |before| && RowHasStatus(before[i], id, account, Complete);
    assert RowHasStatus(after[i], id, account, Failed);
    forall k: JobKind | HasOpenSync(before, k, account) ensures HasOpenSync(after, k, account) {
      var j :| 0 <= j < |before| && OpenInScope(before[j], k, "account", account);
      assert OpenInScope(after[j], k, "account", account);
    }
  }

  /**
   * How a sync job of the account went: whether it was recorded as failed, and whether it could afford to be skipped.
   */
  datatype JobEvent = JobEvent(kind: JobKind, end: RunEnd, failed: bool, survives: bool)

  /** A full or backfill job does harm only by failing, or by being skipped where a request can be lost to its row. */
  predicate Harmless(e: JobEvent) {
    e.kind == SyncAccountFull || e.kind == SyncAccountBackfill ==> !e.failed && (e.end.Skipped? ==> e.survives)
  }

  predicate AllHarmless(log: seq<JobEvent>) {
    forall i :: 0 <= i < |log| ==> Harmless(log[i])
  }

  lemma HarmlessSoFar(log: seq<JobEvent>, more: seq<JobEvent>)
    ensures AllHarmless(log + more) ==> AllHarmless(log) && AllHarmless(more)
  {
    if AllHarmless(log + more) {
      assert forall i :: 0 <= i < |log| ==> log[i] == (log + more)[i];
      assert forall i :: 0 <= i < |more| ==> more[i] == (log + more)[|log| + i];
    }
  }

  /** The mailbox reaches above the claimed interval. */
  ghost predicate LeftAbove(row: Option<SyncState>, mb: Mailbox) {
    row.Some? && row.value.latest.Some? && mb.uidNext > row.value.latest.value + 1
  }

  /** The run fetched the planned window, and counted the messages that came with a source. */
  ghost predicate WasFetched(before: seq<World>, after: seq<World>, p: Plan, fetched: nat) {
    FetchOutcome(before, after, p.lo, p.hi, fetched, true)
  }

  /** It met a message of the planned window that cannot be stored. */
  ghost predicate WasRefused(before: seq<World>, after: seq<World>, p: Plan) {
    exists fetched: nat :: FetchOutcome(before, after, p.lo, p.hi, fetched, false)
  }

  class Worker {
    const account: string
    const jobs: Table
    const mirror: Mirror
    /** How often a job has broken down outside its run. */
    ghost var breaks: nat

    ghost predicate Valid()
      reads jobs, mirror, mirror.store
    {
      jobs.Valid() && mirror.Valid() && mirror.job.Idle?
    }

    ghost predicate Chained()
      reads jobs`rows, mirror`enabled, mirror`row
    {
      ChainedIn(mirror.enabled, mirror.row, jobs.rows, account)
    }

    /** What every mirror run leaves behind. */
    ghost predicate Shaped()
      reads mirror`row
    {
      mirror.row.Some? ==> CursorShape(mirror.row.value)
    }

    ghost predicate FullOpen()
      reads jobs`rows
    {
      HasOpenSync(jobs.rows, SyncAccountFull, account)
    }

    ghost predicate BackfillOpen()
      reads jobs`rows
    {
      HasOpenSync(jobs.rows, SyncAccountBackfill, account)
    }

    ghost predicate DeltaOpen()
      reads jobs`rows
    {
      HasOpenSync(jobs.rows, SyncAccountDelta, account)
    }

    ghost predicate HistoryPending()
      reads mirror`row
    {
      mirror.row.Some? && mirror.row.value.next.Some?
    }

    /** No resume or sign-in made while a skipped backfill job holds its row is lost to that row. */
    ghost predicate SurvivesSkippedBackfill()
      reads jobs`rows, mirror`row
    {
      NeedsBootstrap(mirror.row) || FullOpen() || !HistoryPending()
    }

    /** No resume or sign-in made while a skipped full job holds its row is lost to that row. */
    ghost predicate SurvivesSkippedFull()
      reads jobs`rows, mirror`row
    {
      !NeedsBootstrap(mirror.row) && (HistoryPending() ==> BackfillOpen())
    }

    /** No account is connected yet. */
    constructor (account: string, cfg: Config, mb: Mailbox, win: Window)
      requires WellFormed(mb)
      ensures Valid() && Chained() && fresh(jobs) && fresh(mirror) && fresh(mirror.store)
      ensures this.account == account && jobs.cfg == cfg && jobs.rows == [] && !mirror.enabled && mirror.row.None?
    {
      this.account := account;
      jobs := new Table(cfg);
      mirror := new Mirror(mb, false, win);
      breaks := 0;
    }

    method Queue(kind: JobKind, now: int)
      requires jobs.Valid()
      modifies jobs
      ensures jobs.Valid() && HasOpenSync(jobs.rows, kind, account)
      ensures RowsKept(old(jobs.rows), jobs.rows, true, account)
      ensures old(HasOpenSync(jobs.rows, kind, account)) ==> jobs.rows == old(jobs.rows)
      ensures !old(HasOpenSync(jobs.rows, kind, account)) ==>
                exists id :: jobs.rows == old(jobs.rows) + [NewJob(id, AccountRequest(kind, account), now)]
      ensures forall k: JobKind | k != kind ::
                HasOpenSync(jobs.rows, k, account) <==> old(HasOpenSync(jobs.rows, k, account))
    {
      var id := jobs.QueueJobIdempotent(AccountRequest(kind, account), now);
      if jobs.rows != old(jobs.rows) {
        QueuedOne(old(jobs.rows), jobs.rows, id.value, kind, account, now);
      }
    }

    /** An error, or the end of the process, between two steps of a job. */
    method MayBreak() returns (broke: bool)
      modifies this`breaks
      ensures breaks == old(breaks) + if broke then 1 else 0
    {
      broke := *;
      if broke {
        breaks := breaks + 1;
      }
    }

    method PauseAccountSync()
      requires jobs.Valid()
      modifies mirror`enabled
      ensures jobs.Valid() && Chained() && !mirror.enabled
    {
      mirror.enabled := false;
    }

    method ResumeAccountSync(now: int)
      requires jobs.Valid()
      modifies mirror`enabled, jobs
      ensures jobs.Valid() && Chained() && mirror.enabled
      ensures RowsKept(old(jobs.rows), jobs.rows, true, account)
      ensures NeedsBootstrap(mirror.row) ==> FullOpen()
      ensures !NeedsBootstrap(mirror.row) && HistoryPending() ==> BackfillOpen()
      ensures (if NeedsBootstrap(mirror.row) then old(FullOpen()) else old(BackfillOpen()) || !HistoryPending()) ==>
                jobs.rows == old(jobs.rows)
      ensures NeedsBootstrap(mirror.row) ==> (BackfillOpen() <==> old(BackfillOpen()))
      ensures !NeedsBootstrap(mirror.row) ==> (FullOpen() <==> old(FullOpen()))
      ensures DeltaOpen() <==> old(DeltaOpen())
    {
      mirror.enabled := true;
      if mirror.row.None? || !mirror.row.value.bootstrapped {
        Queue(SyncAccountFull, now);
      } else if mirror.row.value.next.Some? {
        Queue(SyncAccountBackfill, now);
      }
    }

    /** The account's owner signs in again. */
    method SignIn(now: int)
      requires jobs.Valid()
      modifies mirror`enabled, jobs
      ensures jobs.Valid() && Chained() && mirror.enabled && FullOpen()
      ensures RowsKept(old(jobs.rows), jobs.rows, true, account)
      ensures old(FullOpen()) ==> jobs.rows == old(jobs.rows)
      ensures !old(FullOpen()) ==>
                exists id :: jobs.rows == old(jobs.rows) + [NewJob(id, AccountRequest(SyncAccountFull, account), now)]
    {
      mirror.enabled := true;
      Queue(SyncAccountFull, now);
    }

    /** The owner signs in, for the first time or again: an all-null cursor row is seeded unless there is one. */
    method ConnectAccount(now: int)
      requires Valid()
      modifies mirror`enabled, mirror`row, mirror`history, jobs
      ensures Valid() && Chained() && mirror.enabled && FullOpen()
      ensures mirror.row == if old(mirror.row).None? then Some(CLEARED) else old(mirror.row)
      ensures RowsKept(old(jobs.rows), jobs.rows, true, account)
      ensures !old(FullOpen()) ==>
                exists id :: jobs.rows == old(jobs.rows) + [NewJob(id, AccountRequest(SyncAccountFull, account), now)]
    {
      mirror.SeedCursorRow();
      SignIn(now);
    }

    /** The startup scan: it restores the chain whatever failed before, except for a bootstrap that is still due. */
    method QueuePendingBackfills(now: int) returns (resumed: bool)
      requires jobs.Valid() && Shaped()
      modifies jobs
      ensures jobs.Valid()
      ensures Chained() <==> BootstrapDue(mirror.enabled, mirror.row, old(jobs.rows), account)
      ensures resumed <==> mirror.enabled && HistoryPending() && !old(FullOpen()) && !old(BackfillOpen())
      ensures !resumed ==> jobs.rows == old(jobs.rows)
      ensures resumed ==> BackfillOpen() && !FullOpen() && (DeltaOpen() <==> old(DeltaOpen()))
      ensures RowsKept(old(jobs.rows), jobs.rows, true, account)
    {
      if !mirror.enabled || mirror.row.None? || mirror.row.value.next.None? || !mirror.row.value.bootstrapped {
        return false;
      }
      var openFullSync := jobs.FindOpenJob(SyncAccountFull, "account", account);
      var openBackfill := jobs.FindOpenJob(SyncAccountBackfill, "account", account);
      if openFullSync.Some? || openBackfill.Some? {
        return false;
      }
      Queue(SyncAccountBackfill, now);
      return true;
    }

    /** Anything others do to the table and the account's switch, any number of times. */
    method Others(busy: bool, now: int)
      requires jobs.Valid()
      modifies jobs, mirror`enabled
      ensures jobs.Valid() && RowsKept(old(jobs.rows), jobs.rows, busy, account)
      ensures old(Chained()) ==> Chained()
    {
      var steps: nat := *;
      while steps > 0
        invariant jobs.Valid() && RowsKept(old(jobs.rows), jobs.rows, busy, account)
        invariant old(Chained()) ==> Chained()
      {
        ghost var before := jobs.rows;
        OtherStep(busy, now);
        steps := steps - 1;
      }
    }

    method OtherStep(busy: bool, now: int)
      requires jobs.Valid()
      modifies jobs, mirror`enabled
      ensures jobs.Valid() && RowsKept(old(jobs.rows), jobs.rows, busy, account)
      ensures old(Chained()) ==> Chained()
    {
      var choice: nat := *;
      if choice == 0 {
        PauseAccountSync();
      } else if choice == 1 {
        ResumeAccountSync(now);
      } else if choice == 2 && mirror.row.Some? {
        // An account with a job at work has been connected before, so its cursor row is there.
        SignIn(now);
      } else {
        OtherOperation(jobs, busy, account, now);
        if old(Chained()) {
          StillChained(mirror.enabled, mirror.row, old(jobs.rows), jobs.rows, busy, account);
        }
      }
    }

    /** Others act while job `id` is at work. */
    method Meanwhile(id: nat, kind: JobKind, now: int)
      requires jobs.Valid() && Holds(jobs.rows, id, kind, account) && IsSync(kind)
      modifies jobs, mirror`enabled
      ensures jobs.Valid() && Holds(jobs.rows, id, kind, account)
      ensures old(FullOpen()) ==> FullOpen()
      ensures old(BackfillOpen()) ==> BackfillOpen()
      ensures old(DeltaOpen()) ==> DeltaOpen()
      ensures old(Chained()) ==> Chained()
    {
      Others(true, now);
      NothingLost(old(jobs.rows), jobs.rows, id, kind, account);
    }

    /** The stretch before a run looks at the switch. */
    method BeforeRun(id: nat, kind: JobKind, now: int)
      requires Valid() && Holds(jobs.rows, id, kind, account) && IsSync(kind)
      modifies jobs, mirror`enabled
      ensures Valid() && Holds(jobs.rows, id, kind, account)
      ensures old(FullOpen()) ==> FullOpen()
      ensures old(BackfillOpen()) ==> BackfillOpen()
      ensures old(Chained()) ==> Chained()
    {
      Meanwhile(id, kind, now);
    }

    /** Work queued while job `id` of another kind is still at work. */
    method QueueBeside(id: nat, own: JobKind, kind: JobKind, now: int)
      requires jobs.Valid() && Holds(jobs.rows, id, own, account) && IsSync(own)
      modifies jobs
      ensures jobs.Valid() && Holds(jobs.rows, id, own, account) && HasOpenSync(jobs.rows, kind, account)
      ensures FullOpen() <==> old(FullOpen()) || kind == SyncAccountFull
      ensures BackfillOpen() <==> old(BackfillOpen()) || kind == SyncAccountBackfill
      ensures DeltaOpen() <==> old(DeltaOpen()) || kind == SyncAccountDelta
      ensures old(Chained()) ==> Chained()
    {
      Queue(kind, now);
      NothingLost(old(jobs.rows), jobs.rows, id, own, account);
    }

    /** `completeJob`, or `failJob` from the worker's catch block. */
    method Close(id: nat, kind: JobKind, fetched: nat, failed: bool, now: int)
      requires jobs.Valid() && Holds(jobs.rows, id, kind, account) && IsSync(kind)
      modifies jobs
      ensures jobs.Valid() && !HasOpenSync(jobs.rows, kind, account)
      ensures kind != SyncAccountFull ==> (FullOpen() <==> old(FullOpen()))
      ensures kind != SyncAccountBackfill ==> (BackfillOpen() <==> old(BackfillOpen()))
      ensures kind != SyncAccountDelta ==> (DeltaOpen() <==> old(DeltaOpen()))
      ensures if failed then HasStatus(jobs.rows, id, account, Failed)
                else CompletedWith(jobs.rows, id, account, fetched)
    {
      CloseRow(id, fetched, failed, now);
      ClosingEmptiesScope(old(jobs.rows), jobs.rows, id, kind, account);
    }

    method CloseRow(id: nat, fetched: nat, failed: bool, now: int)
      requires jobs.Valid()
      modifies jobs
      ensures jobs.Valid() && KeysUnique(old(jobs.rows)) && Closed(old(jobs.rows), jobs.rows, id)
      ensures forall i :: 0 <= i < |jobs.rows| && old(jobs.rows)[i].id == id ==>
                SameIdentity(old(jobs.rows)[i], jobs.rows[i])
                  && if failed then jobs.rows[i].status == Failed
                     else jobs.rows[i].status == Complete && Counts(jobs.rows[i], fetched)
    {
      var found;
      if failed {
        found := jobs.FailJob(id, "", now);
      } else {
        found := jobs.CompleteJob(id, Some(fetched), Some(0), now);
      }
    }

    /** The job ends badly: its process is gone, or an error is caught and recorded. */
    method Break(id: nat, kind: JobKind, now: int)
      requires jobs.Valid() && Holds(jobs.rows, id, kind, account) && IsSync(kind)
      modifies jobs
      ensures jobs.Valid() && (HasStatus(jobs.rows, id, account, Running) || HasStatus(jobs.rows, id, account, Failed))
      ensures HasStatus(jobs.rows, id, account, Failed) || jobs.rows == old(jobs.rows)
      ensures kind != SyncAccountFull ==> (FullOpen() <==> old(FullOpen()))
      ensures kind != SyncAccountBackfill ==> (BackfillOpen() <==> old(BackfillOpen()))
    {
      var gone: bool := *;
      HeldIsRunning(jobs.rows, id, kind, account);
      if !gone {
        Close(id, kind, 0, true, now);
      }
    }

    /** An error after completion: the worker's catch block fails the row it has already completed. */
    method FailCompleted(id: nat, ghost fetched: nat, now: int)
      requires jobs.Valid() && CompletedWith(jobs.rows, id, account, fetched)
      modifies jobs
      ensures jobs.Valid() && HasStatus(jobs.rows, id, account, Failed)
      ensures FullOpen() <==> old(FullOpen())
      ensures BackfillOpen() <==> old(BackfillOpen())
    {
      CloseRow(id, 0, true, now);
      FailingClosedRow(old(jobs.rows), jobs.rows, id, account);
    }

    /** Others act, then the row completes, unless an error comes before or right after. */
    method CloseWell(id: nat, kind: JobKind, fetched: nat, now: int) returns (broke: bool)
      requires jobs.Valid() && Holds(jobs.rows, id, kind, account) && IsSync(kind)
      modifies jobs, mirror`enabled, this`breaks
      ensures jobs.Valid() && breaks >= old(breaks) && (broke <==> breaks > old(breaks))
      ensures broke ==> HasStatus(jobs.rows, id, account, Running) || HasStatus(jobs.rows, id, account, Failed)
      ensures broke && old(Chained()) ==> HasStatus(jobs.rows, id, account, Failed) || Chained()
      ensures !broke ==> CompletedWith(jobs.rows, id, account, fetched) && !HasOpenSync(jobs.rows, kind, account)
      ensures !broke && kind != SyncAccountFull && old(FullOpen()) ==> FullOpen()
      ensures !broke && kind != SyncAccountBackfill && old(BackfillOpen()) ==> BackfillOpen()
      ensures !broke && kind != SyncAccountDelta && old(DeltaOpen()) ==> DeltaOpen()
      ensures kind != SyncAccountFull && kind != SyncAccountBackfill && old(Chained()) ==> Chained()
      ensures !broke && kind == SyncAccountBackfill && old(Chained()) ==>
                BootstrapDue(mirror.enabled, mirror.row, jobs.rows, account)
    {
      Meanwhile(id, kind, now);
      broke := MayBreak();
      if broke {
        Break(id, kind, now);
        return;
      }
      Close(id, kind, fetched, false, now);
      broke := MayBreak();
      if broke {
        FailCompleted(id, fetched, now);
      }
    }

    // ---------- Full ----------

    /**
     * A full job that was not skipped leaves the chain intact. A skipped one has absorbed every request for a full job
     * made while it was at work; whatever others do, the chain holds if the account was bootstrapped with any pending
     * history queued, and otherwise a resume or a sign-in can be lost (`ResumeDuringFull`, `SignInDuringFull`).
     */
    method SyncAccountFullJob(id: nat, now: int) returns (end: RunEnd, fetched: nat, ghost read: Mailbox)
      requires Valid() && Holds(jobs.rows, id, SyncAccountFull, account)
      modifies jobs, mirror, mirror.store, this`breaks
      ensures Valid() && Ended(jobs.rows, id, account, end, fetched) && !end.ResyncRequired?
      ensures end == Interrupted(Broke) <==> breaks + mirror.crashes > old(breaks + mirror.crashes)
      ensures end == Interrupted(Refused) ==>
                WasRefused(old(mirror.history), mirror.history, FullPlan(old(mirror.row), read, mirror.win))
      ensures end != Interrupted(NoState)
      ensures end.Finished? ==>
                FullSynced(old(mirror.row), mirror.row, read, mirror.win)
                && WasFetched(old(mirror.history), mirror.history, FullPlan(old(mirror.row), read, mirror.win), fetched)
      ensures end.Skipped? || end.NothingNew? ==> fetched == 0
      ensures end.Finished? && LeftAbove(mirror.row, read) ==> DeltaOpen()
      ensures end.Interrupted? ==> Chained() || HasStatus(jobs.rows, id, account, Failed)
      ensures !end.Interrupted? ==> !FullOpen()
      ensures end.Finished? || end.NothingNew? ==> Chained()
      ensures end.Skipped? ==> mirror.row == old(mirror.row)
      ensures end.Skipped? && old(SurvivesSkippedFull()) ==> Chained()
    {
      var backfillNextUid, queueDelta;
      end, fetched, backfillNextUid, queueDelta, read := FullRun(id, now);
      end := FinishFull(id, end, fetched, backfillNextUid, queueDelta, now);
    }

    method FullRun(id: nat, now: int)
      returns (end: RunEnd, fetched: nat, backfillNextUid: Option<nat>, queueDelta: bool, ghost read: Mailbox)
      requires Valid() && Holds(jobs.rows, id, SyncAccountFull, account)
      modifies jobs, mirror, mirror.store
      ensures Valid() && Holds(jobs.rows, id, SyncAccountFull, account) && !end.ResyncRequired?
      ensures end.Finished? || end.NothingNew? ==>
                !NeedsBootstrap(mirror.row) && backfillNextUid == mirror.row.value.next
      ensures end.Finished? ==>
                && FullSynced(old(mirror.row), mirror.row, read, mirror.win)
                && WasFetched(old(mirror.history), mirror.history, FullPlan(old(mirror.row), read, mirror.win), fetched)
                && (LeftAbove(mirror.row, read) ==> queueDelta)
      ensures mirror.crashes == old(mirror.crashes) + if end == Interrupted(Broke) then 1 else 0
      ensures end == Interrupted(Refused) ==>
                WasRefused(old(mirror.history), mirror.history, FullPlan(old(mirror.row), read, mirror.win))
      ensures end != Interrupted(NoState)
      ensures end.Skipped? <==> !mirror.enabled
      ensures end.Skipped? || end.NothingNew? ==> fetched == 0
      ensures end.Skipped? ==> mirror.row == old(mirror.row) && backfillNextUid.None?
      ensures end.Skipped? && old(SurvivesSkippedFull()) ==> SurvivesSkippedFull()
    {
      BeforeRun(id, SyncAccountFull, now);
      end, fetched, backfillNextUid, queueDelta, read := mirror.RunFullSync();
    }

    method FinishFull(id: nat, run: RunEnd, fetched: nat, backfillNextUid: Option<nat>, queueDelta: bool, now: int)
      returns (end: RunEnd)
      requires jobs.Valid() && Holds(jobs.rows, id, SyncAccountFull, account)
      requires run.Finished? || run.NothingNew? ==>
                 !NeedsBootstrap(mirror.row) && backfillNextUid == mirror.row.value.next
      requires run.Skipped? ==> backfillNextUid.None?
      requires !run.ResyncRequired?
      modifies jobs, mirror`enabled, this`breaks
      ensures jobs.Valid() && Ended(jobs.rows, id, account, end, fetched)
      ensures breaks >= old(breaks) && (end != run ==> breaks > old(breaks))
      ensures end == run ==> breaks == old(breaks)
      ensures !end.Interrupted? && queueDelta ==> DeltaOpen()
      ensures end == run || end == Interrupted(Broke)
      ensures end.Interrupted? ==> Chained() || HasStatus(jobs.rows, id, account, Failed)
      ensures !end.Interrupted? ==> !FullOpen()
      ensures end.Finished? || end.NothingNew? ==> Chained()
      ensures end.Skipped? && old(SurvivesSkippedFull()) ==> Chained()
    {
      var broke := QueueAfterFull(id, run, backfillNextUid, queueDelta, now);
      if run.Interrupted? || broke {
        return if run.Interrupted? then run else Interrupted(Broke);
      }
      broke := CloseFull(id, fetched, now);
      return if broke then Interrupted(Broke) else run;
    }

    method CloseFull(id: nat, fetched: nat, now: int) returns (broke: bool)
      requires jobs.Valid() && Holds(jobs.rows, id, SyncAccountFull, account) && FullOpen()
      modifies jobs, mirror`enabled, this`breaks
      ensures jobs.Valid() && breaks >= old(breaks) && (broke <==> breaks > old(breaks))
      ensures if broke then HasStatus(jobs.rows, id, account, Failed)
                || (HasStatus(jobs.rows, id, account, Running) && Chained())
              else CompletedWith(jobs.rows, id, account, fetched) && !FullOpen()
      ensures !broke && old(DeltaOpen()) ==> DeltaOpen()
      ensures !broke && !NeedsBootstrap(mirror.row) && (HistoryPending() ==> old(BackfillOpen())) ==> Chained()
    {
      broke := CloseWell(id, SyncAccountFull, fetched, now);
    }

    /** What the end of a full run queues; the job may have broken before or in between. */
    method QueueAfterFull(id: nat, run: RunEnd, backfillNextUid: Option<nat>, queueDelta: bool, now: int)
      returns (broke: bool)
      requires jobs.Valid() && Holds(jobs.rows, id, SyncAccountFull, account)
      modifies jobs, this`breaks
      ensures jobs.Valid() && breaks >= old(breaks) && (broke <==> run.Interrupted? || breaks > old(breaks))
      ensures run.Interrupted? ==> breaks == old(breaks)
      ensures broke ==>
                HasStatus(jobs.rows, id, account, Failed) || (HasStatus(jobs.rows, id, account, Running) && Chained())
      ensures !broke ==> Holds(jobs.rows, id, SyncAccountFull, account) && FullOpen()
      ensures !broke ==> (BackfillOpen() <==> backfillNextUid.Some? || old(BackfillOpen()))
      ensures !broke ==> (DeltaOpen() <==> queueDelta || old(DeltaOpen()))
    {
      if queueDelta {
        QueueBeside(id, SyncAccountFull, SyncAccountDelta, now);
      }
      HeldIsRunning(jobs.rows, id, SyncAccountFull, account);
      broke := false;
      if !run.Interrupted? {
        broke := MayBreak();
      }
      if run.Interrupted? || broke {
        Break(id, SyncAccountFull, now);
        return true;
      }
      if backfillNextUid.Some? {
        QueueBeside(id, SyncAccountFull, SyncAccountBackfill, now);
        HeldIsRunning(jobs.rows, id, SyncAccountFull, account);
      }
    }

    // ---------- Delta and reconcile ----------

    /**
     * A delta job keeps the chain, however it ends. It never leaves an open delta job, whatever was queued while it
     * ran: its own
     * request for more work was absorbed by its own row.
     */
    method SyncAccountDeltaJob(id: nat, now: int)
      returns (end: RunEnd, fetched: nat, queuedMore: bool, ghost read: Mailbox)
      requires Valid() && Holds(jobs.rows, id, SyncAccountDelta, account)
      modifies jobs, mirror, mirror.store, this`breaks
      ensures Valid() && Ended(jobs.rows, id, account, end, fetched)
      ensures end.Finished? || end.NothingNew? || end.Skipped? ==>
                Delivered(old(mirror.row), mirror.row, old(mirror.history), mirror.history, end, fetched, read)
      ensures end.Finished? ==> (queuedMore <==> LeftAbove(mirror.row, read))
      ensures old(Chained()) ==> Chained()
      ensures !end.Interrupted? ==> !HasOpenSync(jobs.rows, SyncAccountDelta, account)
      ensures end.ResyncRequired? ==> FullOpen()
      ensures end == Interrupted(Broke) <==> breaks + mirror.crashes > old(breaks + mirror.crashes)
      ensures end == Interrupted(NoState) ==> old(mirror.row).None?
      ensures end == Interrupted(Refused) ==>
                && old(mirror.row).Some?
                && WasRefused(old(mirror.history), mirror.history,
                              HeadPlan(Delta, old(mirror.row).value, read.validity, HeadUid(read), mirror.win))
    {
      end, fetched, queuedMore, read := DeltaRun(id, now);
      end := FinishBeside(id, SyncAccountDelta, end, fetched, queuedMore, now);
    }

    /** The run moves only the head cursor, so it cannot break the chain. */
    method DeltaCursors() returns (end: RunEnd, fetched: nat, queuedMore: bool, ghost read: Mailbox)
      requires mirror.Valid() && mirror.job.Idle?
      modifies mirror`row, mirror`remote, mirror`job, mirror`history, mirror`crashes, mirror.store
      ensures mirror.Valid() && mirror.job.Idle?
      ensures old(Chained()) ==> Chained()
      ensures mirror.crashes == old(mirror.crashes) + if end == Interrupted(Broke) then 1 else 0
      ensures end == Interrupted(NoState) ==> old(mirror.row).None?
      ensures end == Interrupted(Refused) ==>
                && old(mirror.row).Some?
                && WasRefused(old(mirror.history), mirror.history,
                              HeadPlan(Delta, old(mirror.row).value, read.validity, HeadUid(read), mirror.win))
      ensures end.Skipped? <==> !mirror.enabled
      ensures Delivered(old(mirror.row), mirror.row, old(mirror.history), mirror.history, end, fetched, read)
      ensures end.Finished? ==> (queuedMore <==> LeftAbove(mirror.row, read))
    {
      end, fetched, queuedMore, read := mirror.RunDeltaSync();
    }

    /** The row moved, and the messages counted, by a delta run. */
    ghost predicate Delivered(row: Option<SyncState>, row': Option<SyncState>, before: seq<World>, after: seq<World>,
                              end: RunEnd, fetched: nat, read: Mailbox)
    {
      if end.Finished? then
        && row.Some? && row'.Some? && HeadMoved(row.value, row'.value, read, mirror.win)
        && WasFetched(before, after, HeadPlan(Delta, row.value, read.validity, HeadUid(read), mirror.win), fetched)
      else row' == row && (end.Interrupted? || fetched == 0)
    }

    method DeltaRun(id: nat, now: int) returns (end: RunEnd, fetched: nat, queuedMore: bool, ghost read: Mailbox)
      requires Valid() && Holds(jobs.rows, id, SyncAccountDelta, account)
      modifies jobs, mirror, mirror.store
      ensures Valid() && Holds(jobs.rows, id, SyncAccountDelta, account)
      ensures old(Chained()) ==> Chained()
      ensures mirror.crashes == old(mirror.crashes) + if end == Interrupted(Broke) then 1 else 0
      ensures end == Interrupted(NoState) ==> old(mirror.row).None?
      ensures end == Interrupted(Refused) ==>
                && old(mirror.row).Some?
                && WasRefused(old(mirror.history), mirror.history,
                              HeadPlan(Delta, old(mirror.row).value, read.validity, HeadUid(read), mirror.win))
      ensures end.Skipped? <==> !mirror.enabled
      ensures Delivered(old(mirror.row), mirror.row, old(mirror.history), mirror.history, end, fetched, read)
      ensures end.Finished? ==> (queuedMore <==> LeftAbove(mirror.row, read))
    {
      BeforeRun(id, SyncAccountDelta, now);
      end, fetched, queuedMore, read := DeltaCursors();
    }

    /** What a run that is not over its own kind of work queues beside its row. */
    method QueueAfterRun(id: nat, kind: JobKind, run: RunEnd, queuedMore: bool, now: int)
      requires IsSync(kind) && jobs.Valid() && Holds(jobs.rows, id, kind, account)
      modifies jobs
      ensures jobs.Valid() && Holds(jobs.rows, id, kind, account)
      ensures old(Chained()) ==> Chained()
      ensures FullOpen() <==> old(FullOpen()) || run.ResyncRequired?
      ensures BackfillOpen() <==> old(BackfillOpen())
      ensures DeltaOpen() <==> old(DeltaOpen()) || (queuedMore && !run.ResyncRequired?)
    {
      if run.ResyncRequired? {
        QueueBeside(id, kind, SyncAccountFull, now);
      } else if queuedMore {
        QueueBeside(id, kind, SyncAccountDelta, now);
      }
    }

    /** The end of a delta or reconcile job, whose run left `backfill_next_uid` alone. */
    method FinishBeside(id: nat, kind: JobKind, run: RunEnd, fetched: nat, queuedMore: bool, now: int)
      returns (end: RunEnd)
      requires kind == SyncAccountDelta || kind == SyncAccountReconcile
      requires jobs.Valid() && Holds(jobs.rows, id, kind, account)
      modifies jobs, mirror`enabled, this`breaks
      ensures jobs.Valid() && Ended(jobs.rows, id, account, end, fetched)
      ensures breaks >= old(breaks)
      ensures if breaks > old(breaks) then end == Interrupted(Broke) && !run.Interrupted? else end == run
      ensures old(Chained()) ==> Chained()
      ensures !end.Interrupted? ==> !HasOpenSync(jobs.rows, kind, account)
      ensures end.ResyncRequired? ==> FullOpen()
    {
      QueueAfterRun(id, kind, run, queuedMore, now);
      var broken := false;
      if !run.Interrupted? {
        broken := MayBreak();
      }
      if run.Interrupted? || broken {
        Break(id, kind, now);
        return if run.Interrupted? then run else Interrupted(Broke);
      }
      var broke := CloseWell(id, kind, fetched, now);
      return if broke then Interrupted(Broke) else run;
    }

    method SyncAccountReconcileJob(id: nat, now: int) returns (end: RunEnd, tombstoned: nat)
      requires Valid() && Holds(jobs.rows, id, SyncAccountReconcile, account)
      modifies jobs, mirror, mirror.store, this`breaks
      ensures end.Interrupted? <==> breaks + mirror.crashes > old(breaks + mirror.crashes)
      ensures !end.Interrupted? ==> tombstoned == |Lost(old(mirror.store.sources), mirror.store.sources)|
      ensures Valid() && Ended(jobs.rows, id, account, end, tombstoned) && mirror.row == old(mirror.row)
      ensures old(Chained()) ==> Chained()
      ensures end.ResyncRequired? ==> FullOpen()
    {
      end, tombstoned := ReconcileRun(id, now);
      end := FinishBeside(id, SyncAccountReconcile, end, tombstoned, false, now);
    }

    method ReconcileRun(id: nat, now: int) returns (end: RunEnd, tombstoned: nat)
      requires Valid() && Holds(jobs.rows, id, SyncAccountReconcile, account)
      modifies jobs, mirror, mirror.store
      ensures Valid() && Holds(jobs.rows, id, SyncAccountReconcile, account) && mirror.row == old(mirror.row)
      ensures old(Chained()) ==> Chained()
      ensures mirror.crashes == old(mirror.crashes) + if end.Interrupted? then 1 else 0
      ensures end.Interrupted? ==> end.cause == Broke
      ensures end.Skipped? <==> !mirror.enabled || !HasInterval(mirror.row)
      ensures !end.Interrupted? ==> tombstoned == |Lost(old(mirror.store.sources), mirror.store.sources)|
    {
      BeforeRun(id, SyncAccountReconcile, now);
      end, tombstoned := ReconcileSources();
    }

    /** The run touches no cursor. */
    method ReconcileSources() returns (end: RunEnd, tombstoned: nat)
      requires mirror.Valid() && mirror.job.Idle?
      modifies mirror`remote, mirror`job, mirror`history, mirror`crashes, mirror.store`sources
      ensures mirror.Valid() && mirror.job.Idle?
      ensures mirror.crashes == old(mirror.crashes) + if end.Interrupted? then 1 else 0
      ensures end.Interrupted? ==> end.cause == Broke
      ensures end.Skipped? <==> !mirror.enabled || !HasInterval(mirror.row)
      ensures !end.Interrupted? ==> tombstoned == |Lost(old(mirror.store.sources), mirror.store.sources)|
    {
      ghost var read, seen;
      end, tombstoned, read, seen := mirror.RunReconcile();
    }

    // ---------- Backfill ----------

    /**
     * A backfill job that ran leaves the chain intact; one with nothing to fetch keeps it. A skipped one has absorbed
     * every request for a backfill made while it was at work; whatever others do, the chain holds if a full job was
     * open or due or no history was pending, and otherwise a resume can be lost (`ResumeDuringBackfill`).
     */
    method SyncAccountBackfillJob(id: nat, now: int) returns (end: RunEnd, fetched: nat)
      requires Valid() && Holds(jobs.rows, id, SyncAccountBackfill, account)
      modifies jobs, mirror, mirror.store, this`breaks
      ensures end == Interrupted(Broke) <==> breaks + mirror.crashes > old(breaks + mirror.crashes)
      ensures end == Interrupted(NoState) ==> old(mirror.row).None?
      ensures end == Interrupted(Refused) ==>
                && old(mirror.row).Some? && old(mirror.row).value.next.Some?
                && WasRefused(old(mirror.history), mirror.history,
                              BackfillPlan(0, old(mirror.row).value.next.value, mirror.win))
      ensures Valid() && Ended(jobs.rows, id, account, end, fetched)
      ensures !end.Interrupted? ==>
                Lowered(old(mirror.row), mirror.row, old(mirror.history), mirror.history, end, fetched)
      ensures end.Interrupted? && old(Chained()) ==> Chained() || HasStatus(jobs.rows, id, account, Failed)
      ensures end.Finished? || end.ResyncRequired? ==> Chained()
      ensures end.NothingNew? && old(Chained()) ==> Chained()
      ensures end.ResyncRequired? ==> FullOpen()
      ensures end.Skipped? ==> mirror.row == old(mirror.row) && !BackfillOpen()
      ensures end.Skipped? && old(SurvivesSkippedBackfill()) ==> Chained()
    {
      var backfillNextUid;
      end, fetched, backfillNextUid := BackfillRun(id, now);
      end := FinishBackfill(id, end, fetched, backfillNextUid, now);
    }

    /** The row moved, and the messages counted, by a backfill run. */
    ghost predicate Lowered(row: Option<SyncState>, row': Option<SyncState>, before: seq<World>, after: seq<World>,
                            end: RunEnd, fetched: nat)
    {
      if end.Finished? then
        && row.Some? && row.value.next.Some? && row'.Some? && LowMoved(row.value, row'.value, mirror.win)
        && WasFetched(before, after, BackfillPlan(0, row.value.next.value, mirror.win), fetched)
      else row' == row && (end.Interrupted? || fetched == 0)
    }

    method BackfillRun(id: nat, now: int) returns (end: RunEnd, fetched: nat, backfillNextUid: Option<nat>)
      requires Valid() && Holds(jobs.rows, id, SyncAccountBackfill, account)
      modifies jobs, mirror, mirror.store
      ensures Valid() && Holds(jobs.rows, id, SyncAccountBackfill, account)
      ensures !end.Finished? && old(Chained()) ==> Chained()
      ensures !end.Finished? ==> mirror.row == old(mirror.row)
      ensures end.Finished? ==> !NeedsBootstrap(mirror.row) && backfillNextUid == mirror.row.value.next
      ensures end.NothingNew? ==> !HistoryPending() && backfillNextUid.None?
      ensures mirror.crashes == old(mirror.crashes) + if end == Interrupted(Broke) then 1 else 0
      ensures end == Interrupted(NoState) ==> old(mirror.row).None?
      ensures end == Interrupted(Refused) ==>
                && old(mirror.row).Some? && old(mirror.row).value.next.Some?
                && WasRefused(old(mirror.history), mirror.history,
                              BackfillPlan(0, old(mirror.row).value.next.value, mirror.win))
      ensures end.Skipped? <==> !mirror.enabled
      ensures end.Skipped? && old(SurvivesSkippedBackfill()) ==> SurvivesSkippedBackfill()
      ensures Lowered(old(mirror.row), mirror.row, old(mirror.history), mirror.history, end, fetched)
    {
      BeforeRun(id, SyncAccountBackfill, now);
      mirror.CoveredNow();
      ghost var read;
      end, fetched, backfillNextUid, read := mirror.RunBackfillSync();
    }

    method FinishBackfill(id: nat, run: RunEnd, fetched: nat, backfillNextUid: Option<nat>, now: int)
      returns (end: RunEnd)
      requires jobs.Valid() && Holds(jobs.rows, id, SyncAccountBackfill, account)
      requires run.Finished? ==> !NeedsBootstrap(mirror.row) && backfillNextUid == mirror.row.value.next
      requires run.NothingNew? ==> !HistoryPending() && backfillNextUid.None?
      requires run.Skipped? ==> !mirror.enabled
      modifies jobs, mirror`enabled, this`breaks
      ensures jobs.Valid() && Ended(jobs.rows, id, account, end, fetched)
      ensures breaks >= old(breaks)
      ensures if breaks > old(breaks) then end == Interrupted(Broke) && !run.Interrupted? else end == run
      ensures end.Interrupted? && old(Chained()) ==> Chained() || HasStatus(jobs.rows, id, account, Failed)
      ensures end.Finished? || end.ResyncRequired? ==> Chained()
      ensures end.NothingNew? && old(Chained()) ==> Chained()
      ensures end.ResyncRequired? ==> FullOpen()
      ensures end.Skipped? ==> !BackfillOpen()
      ensures end.Skipped? && old(SurvivesSkippedBackfill()) ==> Chained()
    {
      var broke := CloseBackfill(id, run, fetched, now);
      if run.Interrupted? || broke {
        return if run.Interrupted? then run else Interrupted(Broke);
      }
      if run.Skipped? {
        return run;
      }
      broke := ContinueChain(id, run, fetched, backfillNextUid, now);
      return if broke then Interrupted(Broke) else run;
    }

    /** A full job is queued if the epoch changed, then the row completes, unless the job has broken or breaks. */
    method CloseBackfill(id: nat, run: RunEnd, fetched: nat, now: int) returns (broke: bool)
      requires jobs.Valid() && Holds(jobs.rows, id, SyncAccountBackfill, account)
      modifies jobs, mirror`enabled, this`breaks
      ensures jobs.Valid() && breaks >= old(breaks) && (broke <==> run.Interrupted? || breaks > old(breaks))
      ensures run.Interrupted? ==> breaks == old(breaks)
      ensures broke ==>
                HasStatus(jobs.rows, id, account, Failed)
                || (HasStatus(jobs.rows, id, account, Running) && (old(Chained()) ==> Chained()))
      ensures !broke ==>
                CompletedWith(jobs.rows, id, account, fetched) && !BackfillOpen()
                  && (run.ResyncRequired? ==> FullOpen())
      ensures !broke && old(Chained()) ==> BootstrapDue(mirror.enabled, mirror.row, jobs.rows, account)
      ensures !broke && old(FullOpen()) ==> FullOpen()
    {
      QueueAfterRun(id, SyncAccountBackfill, run, false, now);
      broke := false;
      if !run.Interrupted? {
        broke := MayBreak();
      }
      if run.Interrupted? || broke {
        Break(id, SyncAccountBackfill, now);
        return true;
      }
      broke := CloseWell(id, SyncAccountBackfill, fetched, now);
    }

    /** Between completion and the end of the job: others act, an error may end it, the next backfill is queued. */
    method ContinueChain(id: nat, run: RunEnd, ghost fetched: nat, backfillNextUid: Option<nat>, now: int)
      returns (broke: bool)
      requires jobs.Valid() && CompletedWith(jobs.rows, id, account, fetched)
      requires run.Finished? ==> !NeedsBootstrap(mirror.row) && backfillNextUid == mirror.row.value.next
      requires run.NothingNew? ==> !HistoryPending() && backfillNextUid.None?
      modifies jobs, mirror`enabled, this`breaks
      ensures jobs.Valid() && breaks >= old(breaks) && (broke <==> breaks > old(breaks))
      ensures if broke then HasStatus(jobs.rows, id, account, Failed)
                else CompletedWith(jobs.rows, id, account, fetched)
      ensures !broke && run.Finished? ==> Chained()
      ensures !broke && run.ResyncRequired? && old(FullOpen()) ==> FullOpen()
      ensures !broke && old(Chained()) ==> Chained()
    {
      AfterCompletion(id, fetched, now);
      broke := MayBreak();
      if broke {
        FailCompleted(id, fetched, now);
        return;
      }
      QueueNext(id, fetched, run, backfillNextUid, now);
    }

    /** The next backfill is queued exactly after a finished one that left some history. */
    method QueueNext(id: nat, ghost fetched: nat, run: RunEnd, backfillNextUid: Option<nat>, now: int)
      requires jobs.Valid() && CompletedWith(jobs.rows, id, account, fetched)
      modifies jobs
      ensures jobs.Valid() && CompletedWith(jobs.rows, id, account, fetched)
      ensures old(Chained()) ==> Chained()
      ensures FullOpen() <==> old(FullOpen())
      ensures BackfillOpen() <==> old(BackfillOpen()) || (run.Finished? && backfillNextUid.Some?)
    {
      if run.Finished? && backfillNextUid.Some? {
        Requeue(id, fetched, now);
      }
    }

    /** Others act while the completed job is not yet over. */
    method AfterCompletion(id: nat, ghost fetched: nat, now: int)
      requires jobs.Valid() && CompletedWith(jobs.rows, id, account, fetched)
      modifies jobs, mirror`enabled
      ensures jobs.Valid() && CompletedWith(jobs.rows, id, account, fetched)
      ensures old(FullOpen()) ==> FullOpen()
      ensures old(Chained()) ==> Chained()
    {
      Others(false, now);
      StillCompleted(old(jobs.rows), jobs.rows, false, id, account, fetched);
    }

    method Requeue(id: nat, ghost fetched: nat, now: int)
      requires jobs.Valid() && CompletedWith(jobs.rows, id, account, fetched)
      modifies jobs
      ensures jobs.Valid() && CompletedWith(jobs.rows, id, account, fetched) && BackfillOpen()
      ensures old(Chained()) ==> Chained()
      ensures FullOpen() <==> old(FullOpen())
    {
      Queue(SyncAccountBackfill, now);
      StillCompleted(old(jobs.rows), jobs.rows, true, id, account, fetched);
      if old(Chained()) {
        StillChained(mirror.enabled, mirror.row, old(jobs.rows), jobs.rows, true, account);
      }
    }

    // ---------- The life of an account ----------

    /** The job of a claimed sync row. */
    method RunJob(id: nat, kind: JobKind, now: int) returns (ghost e: JobEvent)
      requires Valid() && Holds(jobs.rows, id, kind, account) && IsSync(kind)
      modifies jobs, mirror, mirror.store, this`breaks
      ensures Valid()
      ensures e.kind == kind && (e.failed <==> HasStatus(jobs.rows, id, account, Failed))
      ensures e.survives <==> old(if kind == SyncAccountFull then SurvivesSkippedFull() else SurvivesSkippedBackfill())
      ensures old(Chained()) && Harmless(e) ==> Chained()
    {
      ghost var survives := if kind == SyncAccountFull then SurvivesSkippedFull() else SurvivesSkippedBackfill();
      var end, count;
      if kind == SyncAccountFull {
        ghost var read;
        end, count, read := SyncAccountFullJob(id, now);
      } else if kind == SyncAccountBackfill {
        end, count := SyncAccountBackfillJob(id, now);
      } else if kind == SyncAccountReconcile {
        end, count := SyncAccountReconcileJob(id, now);
      } else {
        var queuedMore;
        ghost var read;
        end, count, queuedMore, read := SyncAccountDeltaJob(id, now);
      }
      e := JobEvent(kind, end, HasStatus(jobs.rows, id, account, Failed), survives);
    }

    /** The worker claims a job, and runs it if it is a sync job of the account. */
    method ClaimAndRun(now: int) returns (ghost claimed: Option<JobRules.Job>, ghost log: seq<JobEvent>)
      requires Valid()
      modifies jobs, mirror, mirror.store, this`breaks
      ensures Valid()
      ensures |log| == if claimed.Some? && IsOurs(claimed.value, account) then 1 else 0
      ensures old(Chained()) && AllHarmless(log) ==> Chained()
    {
      log := [];
      var job;
      job, claimed := ClaimSync(now);
      if job.Some? {
        ghost var e := RunJob(job.value.id, job.value.kind, now);
        log := [e];
        assert log[0] == e;
      }
    }

    method ClaimSync(now: int) returns (job: Option<JobRules.Job>, ghost claimed: Option<JobRules.Job>)
      requires Valid()
      modifies jobs
      ensures Valid()
      ensures old(Chained()) ==> Chained()
      ensures claimed.None? ==> jobs.rows == old(jobs.rows)
      ensures job == if claimed.Some? && IsOurs(claimed.value, account) then claimed else None
      ensures job.Some? ==> IsSync(job.value.kind) && Holds(jobs.rows, job.value.id, job.value.kind, account)
    {
      var owner: Option<string> := *;
      job := jobs.ClaimNextJob(now, owner);
      claimed := job;
      ClaimKeepsRows(old(jobs.rows), jobs.rows, job, account);
      if old(Chained()) {
        StillChained(mirror.enabled, mirror.row, old(jobs.rows), jobs.rows, true, account);
      }
      if job.Some? && !IsOurs(job.value, account) {
        job := None;
      }
    }

    /**
     * The chain never stalls. Over any sequence of connects, pauses and resumes, startup scans, requeues, claims and
     * sync jobs, whatever others do in between, pending history and a due bootstrap of an enabled account have an open
     * job, unless a full or backfill job was recorded as failed, or skipped where a request could be lost to its row.
     */
    method LifeOfAccount(start: int) returns (ghost log: seq<JobEvent>)
      requires Valid() && Chained()
      modifies jobs, mirror, mirror.store, this`breaks
      ensures Valid()
      ensures AllHarmless(log) ==> Chained()
    {
      log := [];
      var now := start;
      var steps: nat := *;
      while steps > 0
        invariant Valid()
        invariant AllHarmless(log) ==> Chained()
      {
        ghost var more := OneTurn(now);
        HarmlessSoFar(log, more);
        log := log + more;
        var passed: nat := *;
        now, steps := now + passed, steps - 1;
      }
    }

    method OneTurn(now: int) returns (ghost more: seq<JobEvent>)
      requires Valid()
      modifies jobs, mirror, mirror.store, this`breaks
      ensures Valid()
      ensures old(Chained()) && AllHarmless(more) ==> Chained()
    {
      more := [];
      var choice: nat := *;
      if choice == 0 {
        ConnectAccount(now);
      } else if choice == 1 {
        mirror.CoveredNow();
        var resumed := QueuePendingBackfills(now);
      } else if choice == 2 {
        Others(false, now);
      } else {
        ghost var claimed;
        claimed, more := ClaimAndRun(now);
      }
    }

    // ---------- How a request is lost ----------

    /** A resume while a backfill row is held, and the row's close: exactly when the resume is not lost to it. */
    method ResumeDuringBackfill(id: nat, now: int)
      requires jobs.Valid() && Holds(jobs.rows, id, SyncAccountBackfill, account)
      modifies jobs, mirror`enabled
      ensures jobs.Valid() && mirror.enabled && !BackfillOpen()
      ensures Chained() <==> old(SurvivesSkippedBackfill())
    {
      HeldIsRunning(jobs.rows, id, SyncAccountBackfill, account);
      ResumeAccountSync(now);
      StillHolds(old(jobs.rows), jobs.rows, id, SyncAccountBackfill, account);
      Close(id, SyncAccountBackfill, 0, false, now);
    }

    /** The same while a full row is held: only a bootstrapped account keeps its resume. */
    method ResumeDuringFull(id: nat, now: int)
      requires jobs.Valid() && Holds(jobs.rows, id, SyncAccountFull, account)
      modifies jobs, mirror`enabled
      ensures jobs.Valid() && mirror.enabled && !FullOpen()
      ensures Chained() <==> !NeedsBootstrap(mirror.row)
    {
      HeldIsRunning(jobs.rows, id, SyncAccountFull, account);
      ResumeAccountSync(now);
      StillHolds(old(jobs.rows), jobs.rows, id, SyncAccountFull, account);
      Close(id, SyncAccountFull, 0, false, now);
    }

    /** A sign-in queues a full job, so a backfill row cannot absorb it. */
    method SignInDuringBackfill(id: nat, now: int)
      requires jobs.Valid() && Holds(jobs.rows, id, SyncAccountBackfill, account)
      modifies jobs, mirror`enabled
      ensures jobs.Valid() && mirror.enabled && Chained() && FullOpen() && !BackfillOpen()
    {
      SignIn(now);
      StillHolds(old(jobs.rows), jobs.rows, id, SyncAccountBackfill, account);
      Close(id, SyncAccountBackfill, 0, false, now);
    }

    /** A full row does absorb it. */
    method SignInDuringFull(id: nat, now: int)
      requires jobs.Valid() && Holds(jobs.rows, id, SyncAccountFull, account)
      modifies jobs, mirror`enabled
      ensures jobs.Valid() && mirror.enabled && !FullOpen()
      ensures Chained() <==> old(SurvivesSkippedFull())
    {
      HeldIsRunning(jobs.rows, id, SyncAccountFull, account);
      SignIn(now);
      Close(id, SyncAccountFull, 0, false, now);
    }

    method ConnectThenPause(now: int) returns (ghost id: nat)
      requires Valid() && jobs.rows == [] && mirror.row.None?
      modifies jobs, mirror`enabled, mirror`row, mirror`history
      ensures jobs.Valid() && !mirror.enabled && mirror.row == Some(CLEARED)
      ensures jobs.rows == [NewJob(id, AccountRequest(SyncAccountFull, account), now)]
    {
      ConnectAccount(now);
      id :| jobs.rows == [] + [NewJob(id, AccountRequest(SyncAccountFull, account), now)];
      PauseAccountSync();
    }

    /** A first bootstrap that fails is not picked up by the startup scan; resuming the account does pick it up. */
    method LoseFailedBootstrap(id: nat, now: int)
      requires jobs.Valid() && Shaped() && Holds(jobs.rows, id, SyncAccountFull, account) && mirror.enabled
      requires NeedsBootstrap(mirror.row)
      modifies jobs
      ensures jobs.Valid() && mirror.enabled && !Chained()
    {
      Close(id, SyncAccountFull, 0, true, now);
      var resumed := QueuePendingBackfills(now);
    }
  }

  /** A claim keeps every row; the claimed one is held if it is a sync row of the account. */
  lemma ClaimKeepsRows(before: seq<JobRules.Job>, after: seq<JobRules.Job>, claimed: Option<JobRules.Job>,
                       account: string)
    requires claimed.None? ==> after == before
    requires claimed.Some? ==>
               exists i :: 0 <= i < |before| && before[i].status == Queued && IsRunning(claimed.value)
                           && SameIdentity(before[i], claimed.value) && after == before[i := claimed.value]
    ensures RowsKept(before, after, true, account)
    ensures claimed.Some? && IsOurs(claimed.value, account) ==>
              Holds(after, claimed.value.id, claimed.value.kind, account)
  {
    if claimed.Some? {
      var i :| 0 <= i < |before| && before[i].status == Queued && after == before[i := claimed.value];
      assert after[i] == claimed.value;
      assert IsOurs(claimed.value, account) ==> HeldBy(after[i], claimed.value.id, claimed.value.kind, account);
    }
  }

  /** Alone in the table, a sync job of the account is claimed. */
  lemma LoneJobIsClaimed(cfg: Config, rows: seq<JobRules.Job>, id: nat, account: string, now: int,
                         claimed: Option<JobRules.Job>)
    requires rows == [NewJob(id, AccountRequest(SyncAccountFull, account), now)] && cfg.maxConcurrency >= 1
    requires WellScoped(rows) && (forall lane: JobLane :: Lossless(cfg, rows, now, lane)) ==>
               ConservesWork(cfg, rows, now, claimed)
    ensures claimed.Some?
  {
    var job := rows[0];
    FilterNone(rows, IsRunning);
    assert job in rows && IsEligible(job, now);
    assert IsCompatibleWithRunning(cfg, job, []);
    assert WellScoped(rows);
  }

  /** An account is connected and paused. */
  method ConnectPaused(account: string, cfg: Config, mb: Mailbox, win: Window, now: int)
    returns (w: Worker, ghost id: nat)
    requires WellFormed(mb)
    ensures fresh(w) && fresh(w.jobs) && fresh(w.mirror) && w.account == account && w.jobs.cfg == cfg
    ensures w.jobs.Valid() && w.mirror.row == Some(CLEARED) && !w.mirror.enabled
    ensures w.jobs.rows == [NewJob(id, AccountRequest(SyncAccountFull, account), now)]
  {
    w := new Worker(account, cfg, mb, win);
    id := w.ConnectThenPause(now);
  }

  method ClaimOnly(jobs: Table, ghost queued: nat, account: string, now: int) returns (id: nat)
    requires jobs.Valid() && jobs.cfg.maxConcurrency >= 1
    requires jobs.rows == [NewJob(queued, AccountRequest(SyncAccountFull, account), now)]
    modifies jobs
    ensures jobs.Valid() && Holds(jobs.rows, id, SyncAccountFull, account)
  {
    ghost var before := jobs.rows;
    var claimed := jobs.ClaimNextJob(now, None);
    LoneJobIsClaimed(jobs.cfg, before, queued, account, now, claimed);
    id := claimed.value.id;
    assert HeldBy(jobs.rows[0], id, SyncAccountFull, account);
  }

  /**
   * A whole run that loses a first sync: an account is connected and paused, its full job claimed, and the account
   * resumed while the skipped job is still open.
   */
  method LoseFirstSync(account: string, cfg: Config, mb: Mailbox, win: Window, now: int) returns (w: Worker)
    requires WellFormed(mb) && cfg.maxConcurrency >= 1
    ensures w.jobs.Valid() && w.mirror.enabled && w.mirror.row == Some(CLEARED) && !w.Chained()
  {
    ghost var queued;
    w, queued := ConnectPaused(account, cfg, mb, win, now);
    var id := ClaimOnly(w.jobs, queued, account, now);
    w.ResumeDuringFull(id, now);
  }
}
