/** Safety of the job table: what every operation keeps. */
module JobSafety {
  import opened Common
  import opened Sorting
  import opened JobRules

  ghost predicate SharesLock(a: Job, b: Job) {
    exists lock :: lock in ResourceLocks(a) && lock in ResourceLocks(b)
  }

  ghost predicate SameScope(a: Job, b: Job) {
    a.kind == b.kind && a.scopeType == b.scopeType && a.scopeId == b.scopeId
  }

  /** The invariant of the table, whatever sequence of operations produced it. */
  ghost predicate Safe(cfg: Config, rows: seq<Job>) {
    KeysUnique(rows) && LocksDisjoint(rows) && RunningLeased(rows) && WithinCaps(cfg, rows)
  }

  /** Ids are unique, and so are the scopes of open rows (index jobs_open_scope_idx). */
  ghost predicate KeysUnique(rows: seq<Job>) {
    && (forall i, j :: 0 <= i < j < |rows| ==> rows[i].id != rows[j].id)
    && (forall i, j :: 0 <= i < j < |rows| && IsOpen(rows[i]) && IsOpen(rows[j]) ==> !SameScope(rows[i], rows[j]))
  }

  ghost predicate LocksDisjoint(rows: seq<Job>) {
    forall i, j :: 0 <= i < j < |rows| && IsRunning(rows[i]) && IsRunning(rows[j]) ==> !SharesLock(rows[i], rows[j])
  }

  ghost predicate RunningLeased(rows: seq<Job>) {
    forall i :: 0 <= i < |rows| && IsRunning(rows[i]) ==> rows[i].lease.Some?
  }

  ghost predicate WithinCaps(cfg: Config, rows: seq<Job>) {
    forall lane: Option<JobLane> :: WithinCap(cfg, rows, lane)
  }

  /** The cap of one lane, or the global one. */
  ghost predicate WithinCap(cfg: Config, rows: seq<Job>, lane: Option<JobLane>) {
    match lane
    case None => |RunningRows(rows)| <= cfg.maxConcurrency
    case Some(l) => |RunningInLane(rows, l)| <= LaneCap(cfg, l)
  }

  // ---------- Row changes ----------

  function Claimed(j: Job, now: int, leaseMs: nat, owner: Option<string>): Job {
    j.(status := Running, lease := Some(now + leaseMs), claimOwner := owner, attempts := j.attempts + 1,
       startedAt := Some(OrElse(j.startedAt, now)), lastError := None)
  }

  predicate IsExpired(j: Job, now: int) {
    j.status == Running && j.lease.Some? && j.lease.value < now
  }

  function Requeued(j: Job): Job {
    j.(status := Queued, claimOwner := None, lease := None, lastError := Some(OrElse(j.lastError, "lease expired")))
  }

  /** The identity of a row, which no operation changes. */
  ghost predicate SameIdentity(a: Job, b: Job) {
    a.id == b.id && SameScope(a, b) && a.lane == b.lane
  }

  /** A change that opens nothing, starts nothing, and keeps the lease of a running row. */
  ghost predicate Quiet(before: Job, after: Job) {
    && SameIdentity(before, after)
    && (IsOpen(after) ==> IsOpen(before))
    && (IsRunning(after) ==> IsRunning(before) && after.lease.Some?)
  }

  lemma QuietChangeKeepsSafe(cfg: Config, rows: seq<Job>, i: nat, after: Job)
    requires Safe(cfg, rows) && i < |rows| && Quiet(rows[i], after)
    ensures Safe(cfg, rows[i := after])
  {
    QuietChangeKeepsCaps(cfg, rows, i, after);
  }

  lemma QuietChangeKeepsCaps(cfg: Config, rows: seq<Job>, i: nat, after: Job)
    requires WithinCaps(cfg, rows) && i < |rows| && Quiet(rows[i], after)
    ensures WithinCaps(cfg, rows[i := after])
  {
    var t := rows[i := after];
    forall lane: Option<JobLane> ensures WithinCap(cfg, t, lane) {
      assert WithinCap(cfg, rows, lane);
      FilterUpdate(rows, i, after, if lane.Some? then RunningIn(lane.value) else IsRunning);
    }
  }

  lemma EnqueueKeepsSafe(cfg: Config, rows: seq<Job>, job: Job)
    requires Safe(cfg, rows) && job.status == Queued
    requires forall j :: j in rows ==> j.id != job.id && !(IsOpen(j) && SameScope(j, job))
    ensures Safe(cfg, rows + [job])
  {
    forall lane: Option<JobLane> ensures WithinCap(cfg, rows + [job], lane) {
      assert WithinCap(cfg, rows, lane);
      FilterAppend(rows, job, if lane.Some? then RunningIn(lane.value) else IsRunning);
    }
  }

  lemma ClaimKeepsSafe(cfg: Config, rows: seq<Job>, i: nat, now: int, owner: Option<string>)
    requires Safe(cfg, rows) && i < |rows| && rows[i].status == Queued
    requires |RunningRows(rows)| < cfg.maxConcurrency
    requires IsCompatibleWithRunning(cfg, rows[i], RunningRows(rows))
    ensures Safe(cfg, rows[i := Claimed(rows[i], now, cfg.leaseMs, owner)])
  {
    var after := Claimed(rows[i], now, cfg.leaseMs, owner);
    ClaimKeepsCaps(cfg, rows, i, after);
    ClaimKeepsLocks(cfg, rows, i, after);
  }

  lemma ClaimKeepsCaps(cfg: Config, rows: seq<Job>, i: nat, after: Job)
    requires WithinCaps(cfg, rows) && i < |rows| && rows[i].status == Queued && SameIdentity(rows[i], after)
    requires |RunningRows(rows)| < cfg.maxConcurrency
    requires IsCompatibleWithRunning(cfg, rows[i], RunningRows(rows))
    ensures WithinCaps(cfg, rows[i := after])
  {
    var t := rows[i := after];
    forall lane: Option<JobLane> ensures WithinCap(cfg, t, lane) {
      assert WithinCap(cfg, rows, lane);
      FilterUpdate(rows, i, after, if lane.Some? then RunningIn(lane.value) else IsRunning);
      if lane.Some? {
        FilterTwice(rows, IsRunning, InLane(lane.value), RunningIn(lane.value));
      }
    }
  }

  lemma ClaimKeepsLocks(cfg: Config, rows: seq<Job>, i: nat, after: Job)
    requires LocksDisjoint(rows) && i < |rows| && SameIdentity(rows[i], after)
    requires IsCompatibleWithRunning(cfg, rows[i], RunningRows(rows))
    ensures LocksDisjoint(rows[i := after])
  {
    var t := rows[i := after];
    forall j, k | 0 <= j < k < |t| && IsRunning(t[j]) && IsRunning(t[k]) ensures !SharesLock(t[j], t[k]) {
      ClaimHoldsNewLock(cfg, rows, i, j, k);
    }
  }

  lemma ClaimHoldsNewLock(cfg: Config, rows: seq<Job>, i: nat, j: nat, k: nat)
    requires LocksDisjoint(rows) && i < |rows| && j < |rows| && k < |rows| && j != k
    requires IsCompatibleWithRunning(cfg, rows[i], RunningRows(rows))
    requires (j == i || IsRunning(rows[j])) && (k == i || IsRunning(rows[k]))
    ensures forall a, b :: SameScope(a, rows[j]) && SameScope(b, rows[k]) ==> !SharesLock(a, b)
  {
    forall a, b | SameScope(a, rows[j]) && SameScope(b, rows[k]) ensures !SharesLock(a, b) {
      assert ResourceLocks(a) == ResourceLocks(rows[j]) && ResourceLocks(b) == ResourceLocks(rows[k]);
      if j == i {
        assert rows[k] in RunningRows(rows);
        assert forall lock :: lock in ResourceLocks(rows[k]) ==> lock in HeldLocks(RunningRows(rows));
      } else if k == i {
        assert rows[j] in RunningRows(rows);
        assert forall lock :: lock in ResourceLocks(rows[j]) ==> lock in HeldLocks(RunningRows(rows));
      } else if j < k {
        assert !SharesLock(rows[j], rows[k]);
      } else {
        assert !SharesLock(rows[k], rows[j]);
      }
    }
  }

  /** Two sync jobs of one account never run together, in any safe table. */
  lemma OneSyncPerAccount(cfg: Config, rows: seq<Job>, i: nat, j: nat)
    requires Safe(cfg, rows) && i < |rows| && j < |rows|
    requires IsRunning(rows[i]) && IsRunning(rows[j])
    requires LaneForJobKind(rows[i].kind) == Sync && LaneForJobKind(rows[j].kind) == Sync
    requires rows[i].scopeId == rows[j].scopeId
    ensures i == j
  {
    SyncJobsShareLock(rows[i], rows[j]);
    SyncJobsShareLock(rows[j], rows[i]);
  }

  lemma SyncJobsShareLock(a: Job, b: Job)
    requires LaneForJobKind(a.kind) == Sync && LaneForJobKind(b.kind) == Sync && a.scopeId == b.scopeId
    ensures SharesLock(a, b)
  {
    assert "sync:" + a.scopeId in ResourceLocks(a) && "sync:" + a.scopeId in ResourceLocks(b);
  }

  // ---------- Whole runs ----------

  /** One atomic step of the table: an insert, a claim, or a change that starts nothing. */
  ghost predicate Step(cfg: Config, rows: seq<Job>, rows': seq<Job>) {
    || (exists job :: Inserts(rows, job) && rows' == rows + [job])
    || (exists i, now, owner ::
        Claimable(cfg, rows, i) && rows' == rows[i := Claimed(rows[i], now, cfg.leaseMs, owner)])
    || (exists i, after :: 0 <= i < |rows| && Quiet(rows[i], after) && rows' == rows[i := after])
  }

  ghost predicate Inserts(rows: seq<Job>, job: Job) {
    job.status == Queued && forall j :: j in rows ==> j.id != job.id && !(IsOpen(j) && SameScope(j, job))
  }

  ghost predicate Claimable(cfg: Config, rows: seq<Job>, i: int) {
    && 0 <= i < |rows| && rows[i].status == Queued
    && |RunningRows(rows)| < cfg.maxConcurrency
    && IsCompatibleWithRunning(cfg, rows[i], RunningRows(rows))
  }

  /** The table is safe in every state of every run that starts empty. */
  lemma {:induction false} SafeInEveryRun(cfg: Config, run: seq<seq<Job>>, n: nat)
    requires n < |run| && run[0] == []
    requires forall i :: 0 <= i < |run| - 1 ==> Step(cfg, run[i], run[i + 1])
    ensures Safe(cfg, run[n])
  {
    if n > 0 {
      SafeInEveryRun(cfg, run, n - 1);
      StepKeepsSafe(cfg, run[n - 1], run[n]);
    }
  }

  lemma StepKeepsSafe(cfg: Config, rows: seq<Job>, rows': seq<Job>)
    requires Safe(cfg, rows) && Step(cfg, rows, rows')
    ensures Safe(cfg, rows')
  {
    if job :| Inserts(rows, job) && rows' == rows + [job] {
      EnqueueKeepsSafe(cfg, rows, job);
    } else if i, now, owner :|
        Claimable(cfg, rows, i) && rows' == rows[i := Claimed(rows[i], now, cfg.leaseMs, owner)]
    {
      ClaimKeepsSafe(cfg, rows, i, now, owner);
    } else {
      var i, after :| 0 <= i < |rows| && Quiet(rows[i], after) && rows' == rows[i := after];
      QuietChangeKeepsSafe(cfg, rows, i, after);
    }
  }
}
