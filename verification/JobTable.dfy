/** The job table of lib/jobs.ts with its operations; every one keeps the table safe. */
module JobTable {
  import opened Common
  import opened Sorting
  import opened JobRules
  import opened JobSafety
  import opened JobWindows

  predicate OpenInScope(j: Job, kind: JobKind, scopeType: string, scopeId: string) {
    IsOpen(j) && j.kind == kind && j.scopeType == scopeType && j.scopeId == scopeId
  }

  predicate HasOpen(rows: seq<Job>, kind: JobKind, scopeType: string, scopeId: string) {
    exists i :: 0 <= i < |rows| && OpenInScope(rows[i], kind, scopeType, scopeId)
  }

  /** What a job is queued with; absent options take the defaults of `queueJob`. */
  datatype Request = Request(
    kind: JobKind,
    scopeType: string,
    scopeId: string,
    lane: Option<JobLane>,
    priority: Option<int>,
    runAfterAt: Option<int>)

  function NewJob(id: nat, r: Request, now: int): Job {
    Job(id, r.kind, r.scopeType, r.scopeId, Queued, OrElse(r.lane, LaneForJobKind(r.kind)),
        OrElse(r.priority, 100), now, r.runAfterAt, None, None, 0, None, None, None, 0, 0)
  }

  /** A request for the lane of its kind, under a scope that kind is queued for. */
  predicate IsProperRequest(r: Request) {
    (r.lane.None? || r.lane.value == LaneForJobKind(r.kind)) && ProperScope(r.kind, r.scopeType, r.scopeId)
      && !BorrowsLock(r.kind, r.scopeId)
  }

  lemma ProperRequestsStayWellScoped(rows: seq<Job>, id: nat, r: Request, now: int)
    requires WellScoped(rows)
    ensures WellScoped(rows + [NewJob(id, r, now)]) <==> IsProperRequest(r)
  {
    var job := NewJob(id, r, now);
    assert job in rows + [job];
    assert job.lane == OrElse(r.lane, LaneForJobKind(r.kind));
  }

  /** The fields an update carries; `finished` is the mark with which `completeJob` and `failJob` end a row. */
  datatype Update = Update(status: Option<Status>, successCount: Option<nat>, errorCount: Option<nat>,
                           lastError: Option<string>, finished: bool)

  function Updated(j: Job, u: Update, now: int): Job {
    var counted := j.(status := OrElse(u.status, j.status), successCount := OrElse(u.successCount, j.successCount),
                      errorCount := OrElse(u.errorCount, j.errorCount),
                      lastError := if u.lastError.Some? then u.lastError else j.lastError);
    if u.finished then counted.(finishedAt := Some(now), claimOwner := None, lease := None) else counted
  }

  const COMPLETION := Update(Some(Complete), None, None, None, true)

  /** An update that reports progress or ends the row. */
  predicate IsOrderly(u: Update) {
    if u.finished then u.status == Some(Complete) || u.status == Some(Failed) else u.status.None?
  }

  function ExpiredAt(now: int): Job -> bool { (j: Job) => IsExpired(j, now) }

  function RequeuedIfExpired(j: Job, now: int): Job { if IsExpired(j, now) then Requeued(j) else j }

  /** The first `n` rows have been visited. */
  ghost predicate RequeuedUpTo(before: seq<Job>, after: seq<Job>, n: nat, now: int) {
    && |after| == |before|
    && (forall i :: 0 <= i < n && i < |before| ==> after[i] == RequeuedIfExpired(before[i], now))
    && (forall i :: n <= i < |before| ==> after[i] == before[i])
  }

  lemma ExpiredCountStep(rows: seq<Job>, n: nat, now: int)
    requires n < |rows|
    ensures |Filter(rows[..n + 1], ExpiredAt(now))|
              == |Filter(rows[..n], ExpiredAt(now))| + if IsExpired(rows[n], now) then 1 else 0
  {
    FilterAppend(rows[..n], rows[n], ExpiredAt(now));
    assert rows[..n + 1] == rows[..n] + [rows[n]];
  }

  // ---------- What the operations do to a row, column by column ----------

  ghost predicate IsDue(j: Job, now: int) {
    j.status == Queued && (j.runAfterAt.None? || j.runAfterAt.value <= now)
  }

  /** The more urgent one, the older one among equals. */
  ghost predicate ComesFirst(a: Job, b: Job) {
    a.priority <= b.priority && (a.priority == b.priority ==> a.createdAt <= b.createdAt)
  }

  /** A queued row of the request, in the lane of its kind and at priority 100 unless the request says otherwise. */
  ghost predicate IsFresh(j: Job, r: Request, now: int) {
    && j.kind == r.kind && j.scopeType == r.scopeType && j.scopeId == r.scopeId
    && j.status == Queued
    && j.lane == (if r.lane.Some? then r.lane.value else LaneForJobKind(r.kind))
    && j.priority == (if r.priority.Some? then r.priority.value else 100)
    && j.createdAt == now && j.runAfterAt == r.runAfterAt
    && j.lease.None? && j.claimOwner.None? && j.attempts == 0 && j.startedAt.None? && j.finishedAt.None?
    && j.lastError.None? && j.successCount == 0 && j.errorCount == 0
  }

  /** A claim starts the row under a lease of `leaseMs`, counts the attempt, and clears the last error. */
  ghost predicate IsClaimOf(before: Job, after: Job, now: int, leaseMs: nat, owner: Option<string>) {
    && after.status == Running && after.lease == Some(now + leaseMs) && after.claimOwner == owner
    && after.attempts == before.attempts + 1 && after.lastError.None?
    && after.startedAt == (if before.startedAt.Some? then before.startedAt else Some(now))
    && before == after.(status := before.status, lease := before.lease, claimOwner := before.claimOwner,
                        attempts := before.attempts, lastError := before.lastError, startedAt := before.startedAt)
  }

  /** A running row whose lease ended before `now` is queued again, and any other row is left alone. */
  ghost predicate IsGivenBack(before: Job, after: Job, now: int) {
    if before.status == Running && before.lease.Some? && before.lease.value < now then
      && after.status == Queued && after.lease.None? && after.claimOwner.None?
      && after.lastError == (if before.lastError.Some? then before.lastError else Some("lease expired"))
      && before == after.(status := before.status, lease := before.lease, claimOwner := before.claimOwner,
                          lastError := before.lastError)
    else after == before
  }

  /** The fields an update carries are set; one that ends the row also marks the time and gives the lease up. */
  ghost predicate IsUpdateOf(before: Job, after: Job, u: Update, now: int) {
    && after.status == (if u.status.Some? then u.status.value else before.status)
    && after.successCount == (if u.successCount.Some? then u.successCount.value else before.successCount)
    && after.errorCount == (if u.errorCount.Some? then u.errorCount.value else before.errorCount)
    && after.lastError == (if u.lastError.Some? then u.lastError else before.lastError)
    && after.finishedAt == (if u.finished then Some(now) else before.finishedAt)
    && after.claimOwner == (if u.finished then None else before.claimOwner)
    && after.lease == (if u.finished then None else before.lease)
    && before == after.(status := before.status, successCount := before.successCount, errorCount := before.errorCount,
                        lastError := before.lastError, finishedAt := before.finishedAt,
                        claimOwner := before.claimOwner, lease := before.lease)
  }

  /** The row a table holds under an id. */
  ghost predicate HasRow(rows: seq<Job>, j: Job) { exists i :: 0 <= i < |rows| && rows[i] == j }

  /** Nothing that runs is in the way of the row: neither the caps nor a lock. */
  ghost predicate NothingInTheWay(cfg: Config, rows: seq<Job>, row: Job) {
    && |Filter(rows, (j: Job) => j.status == Running)| < cfg.maxConcurrency
    && |Filter(rows, (j: Job) => j.status == Running && j.lane == row.lane)| < LaneCap(cfg, row.lane)
    && forall j :: j in rows && j.status == Running ==>
         LockName(j.kind, j.scopeId) != LockName(row.kind, row.scopeId)
  }

  lemma FreeMeansNothingInTheWay(cfg: Config, rows: seq<Job>, row: Job)
    ensures NothingInTheWay(cfg, rows, row)
       <==> |RunningRows(rows)| < cfg.maxConcurrency && IsCompatibleWithRunning(cfg, row, RunningRows(rows))
  {
    FilterSame(rows, IsRunning, (j: Job) => j.status == Running);
    FilterTwice(rows, IsRunning, InLane(row.lane), (j: Job) => j.status == Running && j.lane == row.lane);
    assert ResourceLocks(row) == [LockName(row.kind, row.scopeId)];
    forall j | j in rows && j.status == Running
      ensures LockName(j.kind, j.scopeId) in HeldLocks(RunningRows(rows))
    {
      assert j in RunningRows(rows) && LockName(j.kind, j.scopeId) in ResourceLocks(j);
    }
  }

  /** A window in the columns of its rows: at most 25, due, in order, and nothing earlier left out. */
  ghost predicate WindowShows(rows: seq<Job>, lane: JobLane, now: int, window: seq<Job>) {
    && |window| <= 25
    && (forall j :: j in window ==> j in rows && j.lane == lane && IsDue(j, now))
    && (forall j :: j in rows && j.lane == lane && IsDue(j, now) && j !in window ==>
        |window| == 25 && forall k :: k in window ==> ComesFirst(k, j))
    && (forall i, k :: 0 <= i < k < |window| ==> ComesFirst(window[i], window[k]))
  }

  lemma LaneWindowShows(rows: seq<Job>, lane: JobLane, now: int, window: seq<Job>)
    requires IsLaneWindow(rows, lane, now, window)
    ensures WindowShows(rows, lane, now, window)
  {
    forall j ensures j in EligibleInLane(rows, lane, now) <==> j in rows && j.lane == lane && IsDue(j, now) {
    }
  }

  /** One due row that nothing was in the way of has been started, and no other row has changed. */
  ghost predicate StartedOne(cfg: Config, before: seq<Job>, after: seq<Job>, started: Job, now: int,
                             owner: Option<string>) {
    exists i :: 0 <= i < |before| && after == before[i := started] && IsDue(before[i], now)
                && NothingInTheWay(cfg, before, before[i])
                && IsClaimOf(before[i], started, now, cfg.leaseMs, owner)
  }

  /** The row of a claim is still running under it, or else queued again. */
  ghost predicate LeaseDecides(rows: seq<Job>, claimed: Job, live: bool) {
    exists i :: 0 <= i < |rows| && rows[i].id == claimed.id
                && (live ==> rows[i] == claimed && rows[i].status == Running)
                && (!live ==> rows[i].status == Queued && rows[i].lease.None?)
  }

  lemma LeaseLasts(cfg: Config, before: seq<Job>, started: seq<Job>, after: seq<Job>, claimed: Job, now: int,
                   owner: Option<string>, later: int)
    requires StartedOne(cfg, before, started, claimed, now, owner)
    requires |after| == |started| && forall i :: 0 <= i < |after| ==> IsGivenBack(started[i], after[i], later)
    ensures LeaseDecides(after, claimed, later <= now + cfg.leaseMs)
  {
    var i :| 0 <= i < |before| && started == before[i := claimed]
             && IsClaimOf(before[i], claimed, now, cfg.leaseMs, owner);
    assert started[i] == claimed && IsGivenBack(started[i], after[i], later);
  }

  /** Of the due rows that nothing is in the way of, the claimed one comes first. */
  ghost predicate ClaimsFirst(cfg: Config, rows: seq<Job>, now: int, claimed: Option<Job>) {
    forall r :: r in rows && IsDue(r, now) && NothingInTheWay(cfg, rows, r) ==>
      claimed.Some? && ComesFirst(claimed.value, r)
  }

  lemma ConservingClaimsFirst(cfg: Config, rows: seq<Job>, now: int, claimed: Option<Job>)
    requires ConservesWork(cfg, rows, now, claimed)
    ensures ClaimsFirst(cfg, rows, now, claimed)
  {
    forall r | r in rows && IsDue(r, now) && NothingInTheWay(cfg, rows, r)
      ensures claimed.Some? && ComesFirst(claimed.value, r)
    {
      FreeMeansNothingInTheWay(cfg, rows, r);
    }
  }

  /** Whatever the caps, a claim passes over nothing when no lane has more than 25 due rows. */
  lemma FewDueRowsLoseNothing(cfg: Config, rows: seq<Job>, now: int, lane: JobLane)
    requires |Filter(rows, (j: Job) => IsDue(j, now) && j.lane == lane)| <= 25
    ensures Lossless(cfg, rows, now, lane)
  {
    FilterSame(rows, EligibleIn(lane, now), (j: Job) => IsDue(j, now) && j.lane == lane);
  }

  class Table {
    const cfg: Config
    var rows: seq<Job>
    var nextId: nat

    ghost predicate Valid()
      reads this
    {
      Safe(cfg, rows) && forall i :: 0 <= i < |rows| ==> rows[i].id < nextId
    }

    constructor (cfg: Config)
      ensures Valid() && rows == [] && this.cfg == cfg
    {
      this.cfg, rows, nextId := cfg, [], 0;
    }

    method FindOpenJob(kind: JobKind, scopeType: string, scopeId: string) returns (id: Option<nat>)
      ensures id.Some? <==> HasOpen(rows, kind, scopeType, scopeId)
      ensures id.Some? ==>
                exists i :: 0 <= i < |rows| && rows[i].id == id.value && OpenInScope(rows[i], kind, scopeType, scopeId)
                             && forall j :: 0 <= j < |rows| && OpenInScope(rows[j], kind, scopeType, scopeId) ==>
                               rows[i].createdAt <= rows[j].createdAt
    {
      var best: Option<nat> := None;
      for i := 0 to |rows|
        invariant best.None? ==> forall j :: 0 <= j < i ==> !OpenInScope(rows[j], kind, scopeType, scopeId)
        invariant best.Some? ==> best.value < i && OpenInScope(rows[best.value], kind, scopeType, scopeId)
        invariant best.Some? ==> forall j :: 0 <= j < i && OpenInScope(rows[j], kind, scopeType, scopeId) ==>
                    rows[best.value].createdAt <= rows[j].createdAt
      {
        if OpenInScope(rows[i], kind, scopeType, scopeId)
          && (best.None? || rows[i].createdAt < rows[best.value].createdAt) {
          best := Some(i);
        }
      }
      id := if best.Some? then Some(rows[best.value].id) else None;
    }

    /** None is the unique index refusing a second open row of the scope. */
    method QueueJob(r: Request, now: int) returns (id: Option<nat>)
      requires Valid()
      modifies this
      ensures Valid()
      ensures id.None? <==> old(HasOpen(rows, r.kind, r.scopeType, r.scopeId))
      ensures id.None? ==> rows == old(rows)
      ensures id.Some? ==> rows == old(rows) + [NewJob(id.value, r, now)] && IsFresh(rows[|old(rows)|], r, now)
      ensures id.Some? && WellScoped(old(rows)) ==> (WellScoped(rows) <==> IsProperRequest(r))
    {
      var refused := HasOpen(rows, r.kind, r.scopeType, r.scopeId);
      if refused {
        return None;
      }
      var job := NewJob(nextId, r, now);
      EnqueueKeepsSafe(cfg, rows, job);
      if WellScoped(rows) {
        ProperRequestsStayWellScoped(rows, nextId, r, now);
      }
      rows := rows + [job];
      id := Some(nextId);
      nextId := nextId + 1;
    }

    method QueueJobIdempotent(r: Request, now: int) returns (id: Option<nat>)
      requires Valid()
      modifies this
      ensures Valid()
      ensures HasOpen(rows, r.kind, r.scopeType, r.scopeId)
      ensures id.Some? && exists i ::
                0 <= i < |rows| && rows[i].id == id.value && OpenInScope(rows[i], r.kind, r.scopeType, r.scopeId)
      ensures if old(HasOpen(rows, r.kind, r.scopeType, r.scopeId)) then rows == old(rows)
              else rows == old(rows) + [NewJob(id.value, r, now)] && IsFresh(rows[|old(rows)|], r, now)
    {
      id := QueueJob(r, now);
      if id.None? {
        id := FindOpenJob(r.kind, r.scopeType, r.scopeId);
      } else {
        assert OpenInScope(rows[|rows| - 1], r.kind, r.scopeType, r.scopeId);
      }
    }

    method RequeueExpiredJobs(now: int) returns (changes: nat)
      requires Valid()
      modifies this`rows
      ensures Valid() && RequeuedUpTo(old(rows), rows, |rows|, now)
      ensures forall i :: 0 <= i < |rows| ==> IsGivenBack(old(rows)[i], rows[i], now)
      ensures forall j :: j in rows && IsRunning(j) ==> j.lease.Some? && now <= j.lease.value
      ensures changes == |Filter(old(rows), ExpiredAt(now))|
    {
      changes := 0;
      ghost var before := rows;
      for i := 0 to |rows|
        invariant Valid() && RequeuedUpTo(before, rows, i, now)
        invariant changes == |Filter(before[..i], ExpiredAt(now))|
      {
        var requeued := VisitRow(i, now, before);
        changes := changes + if requeued then 1 else 0;
      }
      assert before[..|rows|] == before;
    }

    method VisitRow(i: nat, now: int, ghost before: seq<Job>) returns (requeued: bool)
      requires Valid() && i < |rows| && RequeuedUpTo(before, rows, i, now)
      modifies this`rows
      ensures Valid() && RequeuedUpTo(before, rows, i + 1, now)
      ensures |Filter(before[..i + 1], ExpiredAt(now))|
                == |Filter(before[..i], ExpiredAt(now))| + if requeued then 1 else 0
    {
      ExpiredCountStep(before, i, now);
      requeued := IsExpired(rows[i], now);
      if requeued {
        QuietChangeKeepsSafe(cfg, rows, i, Requeued(rows[i]));
        rows := rows[i := Requeued(rows[i])];
      }
    }

    method IndexOf(id: nat) returns (at: Option<nat>)
      ensures at.None? <==> forall j :: j in rows ==> j.id != id
      ensures at.Some? ==> at.value < |rows| && rows[at.value].id == id
    {
      for i := 0 to |rows|
        invariant forall j :: 0 <= j < i ==> rows[j].id != id
      {
        if rows[i].id == id {
          return Some(i);
        }
      }
      return None;
    }

    method ExtendJobLease(id: nat, now: int)
      requires Valid()
      modifies this`rows
      ensures Valid()
      ensures |rows| == |old(rows)|
      ensures forall i :: 0 <= i < |rows| ==>
                rows[i] == if old(rows)[i].id == id then old(rows)[i].(lease := Some(now + cfg.leaseMs))
                  else old(rows)[i]
    {
      var at := IndexOf(id);
      if at.Some? {
        var after := rows[at.value].(lease := Some(now + cfg.leaseMs));
        QuietChangeKeepsSafe(cfg, rows, at.value, after);
        rows := rows[at.value := after];
      }
    }

    /**
     * Any fields of one row; false when the row is missing, which the source reports as an error. The table stays
     * valid when the change is quiet.
     */
    method UpdateJob(id: nat, u: Update, now: int) returns (found: bool)
      requires Valid()
      modifies this`rows
      ensures found <==> exists j :: j in old(rows) && j.id == id
      ensures |rows| == |old(rows)|
      ensures forall i :: 0 <= i < |rows| ==>
                rows[i] == if old(rows)[i].id == id then Updated(old(rows)[i], u, now) else old(rows)[i]
      ensures forall i :: 0 <= i < |rows| && old(rows)[i].id == id ==> IsUpdateOf(old(rows)[i], rows[i], u, now)
      ensures (forall j :: j in old(rows) && j.id == id ==> Quiet(j, Updated(j, u, now))) ==> Valid()
    {
      var at := IndexOf(id);
      if at.None? {
        return false;
      }
      var after := Updated(rows[at.value], u, now);
      if Quiet(rows[at.value], after) {
        QuietChangeKeepsSafe(cfg, rows, at.value, after);
      }
      rows := rows[at.value := after];
      return true;
    }

    /** An update that reports progress or ends the row. */
    method OrderlyUpdate(id: nat, u: Update, now: int) returns (found: bool)
      requires Valid() && IsOrderly(u)
      modifies this`rows
      ensures Valid() && |rows| == |old(rows)|
      ensures found <==> exists j :: j in old(rows) && j.id == id
      ensures forall i :: 0 <= i < |rows| ==>
                rows[i] == if old(rows)[i].id == id then Updated(old(rows)[i], u, now) else old(rows)[i]
    {
      forall j | j in rows && j.id == id ensures Quiet(j, Updated(j, u, now)) {
      }
      found := UpdateJob(id, u, now);
    }

    method CompleteJob(id: nat, successCount: Option<nat>, errorCount: Option<nat>, now: int) returns (found: bool)
      requires Valid()
      modifies this`rows
      ensures Valid() && |rows| == |old(rows)|
      ensures found <==> exists j :: j in old(rows) && j.id == id
      ensures forall i :: 0 <= i < |rows| ==>
                rows[i] == if old(rows)[i].id == id
                           then Updated(old(rows)[i],
                                        COMPLETION.(successCount := successCount, errorCount := errorCount), now)
                           else old(rows)[i]
      ensures forall i :: 0 <= i < |rows| && old(rows)[i].id == id ==>
                IsUpdateOf(old(rows)[i], rows[i], Update(Some(Complete), successCount, errorCount, None, true), now)
    {
      found := OrderlyUpdate(id, COMPLETION.(successCount := successCount, errorCount := errorCount), now);
    }

    method FailJob(id: nat, error: string, now: int) returns (found: bool)
      requires Valid()
      modifies this`rows
      ensures Valid() && |rows| == |old(rows)|
      ensures found <==> exists j :: j in old(rows) && j.id == id
      ensures forall i :: 0 <= i < |rows| ==>
                rows[i] == if old(rows)[i].id == id
                           then Updated(old(rows)[i], COMPLETION.(status := Some(Failed), lastError := Some(error)),
                                        now)
                           else old(rows)[i]
      ensures forall i :: 0 <= i < |rows| && old(rows)[i].id == id ==>
                IsUpdateOf(old(rows)[i], rows[i], Update(Some(Failed), None, None, Some(error), true), now)
    {
      found := OrderlyUpdate(id, COMPLETION.(status := Some(Failed), lastError := Some(error)), now);
    }

    /** SELECT ... WHERE status = 'queued' AND lane = ? ... ORDER BY priority, created_at LIMIT 25. */
    method SelectLaneWindow(lane: JobLane, now: int) returns (window: seq<Job>)
      ensures IsLaneWindow(rows, lane, now, window)
    {
      var eligible := EligibleInLane(rows, lane, now);
      var ordered := Sort(eligible, NoLater);
      window := ordered[..Min(WINDOW, |ordered|)];
      assert ordered == window + ordered[|window|..];
      forall j | j in eligible && j !in window
        ensures |eligible| > WINDOW && forall k :: k in window ==> NoLater(k, j)
      {
        assert j in ordered[|window|..];
      }
    }

    /** The windows of all lanes, concatenated. */
    method GatherWindows(now: int) returns (queued: seq<Job>, ghost windows: map<JobLane, seq<Job>>)
      ensures MergedWindows(rows, now, windows, queued)
    {
      queued := [];
      windows := map[];
      for n := 0 to |ALL_LANES|
        invariant forall lane: JobLane :: lane in windows <==> lane in ALL_LANES[..n]
        invariant forall lane: JobLane :: lane in windows ==> IsLaneWindow(rows, lane, now, windows[lane])
        invariant forall j :: j in queued <==> InWindows(windows, j)
      {
        var window := SelectLaneWindow(ALL_LANES[n], now);
        assert ALL_LANES[n] !in ALL_LANES[..n];
        assert ALL_LANES[..n + 1] == ALL_LANES[..n] + [ALL_LANES[n]];
        forall j ensures InWindows(windows[ALL_LANES[n] := window], j) <==> InWindows(windows, j) || j in window {
          OneMoreWindow(windows, ALL_LANES[n], window, j);
        }
        queued := queued + window;
        windows := windows[ALL_LANES[n] := window];
      }
      assert ALL_LANES[..|ALL_LANES|] == ALL_LANES;
      WindowsCoverLanes(windows);
      assert forall lane: JobLane :: HasWindow(rows, now, windows, lane);
    }

    method ClaimNextJob(now: int, owner: Option<string>) returns (claimed: Option<Job>)
      requires Valid()
      modifies this`rows
      ensures Valid()
      ensures claimed.None? ==> rows == old(rows)
      ensures claimed.Some? ==> exists i :: Claimable(cfg, old(rows), i) && IsEligible(old(rows)[i], now)
                                  && claimed.value == Claimed(old(rows)[i], now, cfg.leaseMs, owner)
                                  && rows == old(rows)[i := claimed.value]
      ensures claimed.Some? ==> StartedOne(cfg, old(rows), rows, claimed.value, now, owner)
      ensures WellScoped(old(rows)) && (forall lane: JobLane :: Lossless(cfg, old(rows), now, lane)) ==>
                ConservesWork(cfg, old(rows), now, claimed)
    {
      var running := RunningRows(rows);
      if |running| >= cfg.maxConcurrency {
        return None;
      }
      ghost var windows;
      var queued;
      queued, windows := GatherWindows(now);
      var ordered := Sort(queued, NoLater);
      var choice := FirstCompatible(ordered);
      if WellScoped(rows) && (forall lane: JobLane :: Lossless(cfg, rows, now, lane)) {
        assert OpenForClaim(cfg, rows);
        WorkConserving(cfg, rows, now, windows, ordered, choice);
      }
      if choice.None? {
        return None;
      }
      WindowRowIsEligible(rows, now, windows, queued, choice.value);
      claimed := MarkClaimed(choice.value, now, owner);
    }

    /** A claim without a heartbeat keeps its row through every requeue until its lease ends, and through none after. */
    method ClaimThenRequeue(now: int, later: int, owner: Option<string>) returns (claimed: Option<Job>)
      requires Valid()
      modifies this`rows
      ensures Valid()
      ensures claimed.Some? ==> LeaseDecides(rows, claimed.value, later <= now + cfg.leaseMs)
    {
      claimed := ClaimNextJob(now, owner);
      ghost var started := rows;
      var changes := RequeueExpiredJobs(later);
      if claimed.Some? {
        LeaseLasts(cfg, old(rows), started, rows, claimed.value, now, owner, later);
      }
    }

    /** UPDATE jobs SET status = 'running' ... WHERE id = ? AND status = 'queued'. */
    method MarkClaimed(row: Job, now: int, owner: Option<string>) returns (claimed: Option<Job>)
      requires Valid() && row in rows && IsEligible(row, now)
      requires |RunningRows(rows)| < cfg.maxConcurrency && IsCompatibleWithRunning(cfg, row, RunningRows(rows))
      modifies this`rows
      ensures Valid()
      ensures claimed == Some(Claimed(row, now, cfg.leaseMs, owner))
      ensures exists i :: Claimable(cfg, old(rows), i) && old(rows)[i] == row && rows == old(rows)[i := claimed.value]
      ensures StartedOne(cfg, old(rows), rows, claimed.value, now, owner)
    {
      var at := IndexOf(row.id);
      assert rows[at.value] == row;
      ClaimKeepsSafe(cfg, rows, at.value, now, owner);
      claimed := Some(Claimed(row, now, cfg.leaseMs, owner));
      assert Claimable(cfg, rows, at.value);
      FreeMeansNothingInTheWay(cfg, rows, row);
      rows := rows[at.value := claimed.value];
    }

    method FirstCompatible(ordered: seq<Job>) returns (choice: Option<Job>)
      requires Sorted(ordered, NoLater)
      ensures ChosenFrom(cfg, rows, ordered, choice)
    {
      var running := RunningRows(rows);
      for i := 0 to |ordered|
        invariant forall j :: 0 <= j < i ==> !IsCompatibleWithRunning(cfg, ordered[j], running)
      {
        if IsCompatibleWithRunning(cfg, ordered[i], running) {
          return Some(ordered[i]);
        }
      }
      return None;
    }
  }

  lemma WindowsCoverLanes(windows: map<JobLane, seq<Job>>)
    requires forall lane: JobLane :: lane in windows <==> lane in ALL_LANES
    ensures forall lane: JobLane :: lane in windows
  {
    forall lane: JobLane ensures lane in windows {
      EveryLaneListed(lane);
    }
  }
}
