/** Work conservation of a claim: when the 25-row window of each lane loses nothing, decided by the caps alone. */
module JobWindows {
  import opened Common
  import opened Sorting
  import opened JobRules
  import opened JobSafety

  // ---------- Scopes ----------

  /** The scopes each kind of job is queued under. */
  predicate ProperScope(kind: JobKind, scopeType: string, scopeId: string) {
    match kind
    case SyncAccountFull | SyncAccountDelta | SyncAccountBackfill | SyncAccountReconcile
       | ClassifyAccountBacklog | ClassifyRootMessages | ClassifyFinanceBacklog | ClassifyFinanceMessages
       | RebuildOverseer => scopeType == "account"
    case ProcessFinanceUpload => scopeType == "finance_upload"
    case ClassifyReviewBacklog => scopeType == "account" || (scopeType == "system" && scopeId == "review_classifier")
    case GenerateFinanceMappingCandidates => scopeType == "system" && scopeId == "finance_mapping_candidates"
    case RebuildFinanceKnowledge => scopeType == "system" && scopeId == "finance"
    case RebuildFinanceRollups => scopeType == "system" && scopeId == "finance_rollups"
    case ImportOperatorRegistry => scopeType == "system" && scopeId == "operator_registry"
    case ReconcileRegistrySuggestions => scopeType == "system" && scopeId == "registry_suggestions"
    case RebuildCategoryAssignments => scopeType == "system" && scopeId == "categories"
    case ImportFinanceArtifact | ExportFinanceBeancount
       | GenerateTaxPersonalPackage | GenerateTaxBusinessQuarterPackage => scopeType == "system"
  }

  predicate IsWellScoped(j: Job) {
    j.lane == LaneForJobKind(j.kind) && ProperScope(j.kind, j.scopeType, j.scopeId) && !BorrowsLock(j.kind, j.scopeId)
  }

  /**
   * Rows carry the lane of their kind and a scope it is queued under, and no finance job is scoped to a reserved word.
   */
  ghost predicate WellScoped(rows: seq<Job>) {
    forall j :: j in rows ==> IsWellScoped(j)
  }

  // ---------- The criterion ----------

  /** How many jobs of a lane can be at work when one more is claimed. */
  function Busiest(cfg: Config, lane: JobLane): int { Min(LaneCap(cfg, lane), cfg.maxConcurrency) - 1 }

  /**
   * The caps under which a lane's window can never be filled by rows that wait for a lock. A running job of the sync
   * lane holds back at most three other jobs of its account, one of the LLM lanes at most one; in the materialize lane
   * it holds back any number of artifact imports. Review and overseer jobs hold back nobody who could fill a window,
   * and an export or report job holds back its whole lane.
   */
  predicate WindowSuffices(cfg: Config, lane: JobLane) {
    match lane
    case Sync => 3 * Busiest(cfg, lane) < WINDOW
    case RootLlm | FinanceLlm => Busiest(cfg, lane) < WINDOW
    case Materialize => Busiest(cfg, lane) <= 0
    case ReviewLlm | ExportReport | Overseer => true
  }

  /** The window holds, for every compatible candidate of the lane, a compatible one that is not later. */
  ghost predicate StandsFor(cfg: Config, rows: seq<Job>, now: int, lane: JobLane, window: seq<Job>) {
    forall r | r in EligibleInLane(rows, lane, now) && IsCompatibleWithRunning(cfg, r, RunningRows(rows)) ::
      exists s :: Precedes(cfg, rows, window, s, r)
  }

  ghost predicate Precedes(cfg: Config, rows: seq<Job>, window: seq<Job>, s: Job, r: Job) {
    s in window && IsCompatibleWithRunning(cfg, s, RunningRows(rows)) && NoLater(s, r)
  }

  /** A safe, well-scoped table with room for one more job. */
  ghost predicate OpenForClaim(cfg: Config, rows: seq<Job>) {
    Safe(cfg, rows) && WellScoped(rows) && |RunningRows(rows)| < cfg.maxConcurrency
  }

  /** The lane's window loses nothing in any such table. */
  ghost predicate LosesNothing(cfg: Config, lane: JobLane) {
    forall rows, now, window :: OpenForClaim(cfg, rows) && IsLaneWindow(rows, lane, now, window) ==>
      StandsFor(cfg, rows, now, lane, window)
  }

  // ---------- Sufficiency ----------

  /** Rows of one lane contend for the same thing when their locks agree. */
  predicate Contend(a: Job, b: Job) { LockName(a.kind, a.scopeId) == LockName(b.kind, b.scopeId) }

  /** Some job of the list holds the lock that `j` needs. */
  ghost predicate Waits(j: Job, running: seq<Job>) { exists r :: r in running && Contend(j, r) }

  function ContendsWith(r: Job): Job -> bool { (j: Job) => Contend(j, r) }

  function FreeOf(r: Job): Job -> bool { (j: Job) => !Contend(j, r) }

  /** Different open rows, none of them in the scope of another. */
  ghost predicate DistinctScopes(rows: seq<Job>) {
    forall i, j :: 0 <= i < j < |rows| ==> !SameScope(rows[i], rows[j]) && !SameScope(rows[j], rows[i])
  }

  /** How many rows of a list one lock can hold back. */
  function PerLock(lane: JobLane): nat {
    match lane
    case Sync => 3
    case RootLlm | FinanceLlm => 1
    case _ => 0
  }

  /** In a per-account lane, a lock tells the scope. */
  lemma LockTellsScope(a: Job, b: Job)
    requires IsWellScoped(a) && IsWellScoped(b) && a.lane == b.lane && Contend(a, b)
    requires a.lane == Sync || a.lane == RootLlm || a.lane == FinanceLlm || a.lane == ReviewLlm
               || a.kind.RebuildOverseer?
    ensures a.scopeId == b.scopeId && (a.lane != ReviewLlm ==> a.scopeType == b.scopeType)
    ensures a.kind.ProcessFinanceUpload? <==> b.kind.ProcessFinanceUpload?
  {
    var (x, y) := (LockName(a.kind, a.scopeId), LockName(b.kind, b.scopeId));
    if a.lane == FinanceLlm {
      assert x[7] == if a.kind.ProcessFinanceUpload? then '_' else ':';
      assert y[7] == if b.kind.ProcessFinanceUpload? then '_' else ':';
      var n := if a.kind.ProcessFinanceUpload? then 15 else 8;
      assert x[n..] == a.scopeId && y[n..] == b.scopeId;
    } else if a.lane == Overseer {
      assert x[0] == 'o';
      assert x[9..] == a.scopeId && (b.kind.RebuildOverseer? ==> y[9..] == b.scopeId);
    } else {
      var n := if a.lane == ReviewLlm then 7 else 5;
      assert x[n..] == a.scopeId && y[n..] == b.scopeId;
    }
  }

  /** Jobs that one running job of the lane holds back are few: others of its account, one of each other kind. */
  lemma FewPerLock(lane: JobLane, r: Job, held: seq<Job>)
    requires lane == Sync || lane == RootLlm || lane == FinanceLlm
    requires IsWellScoped(r) && r.lane == lane
    requires forall j :: j in held ==> IsWellScoped(j) && j.lane == lane && Contend(j, r) && !SameScope(j, r)
    requires DistinctScopes(held)
    ensures |held| <= PerLock(lane)
  {
    forall i | 0 <= i < |held|
      ensures held[i].scopeId == r.scopeId && held[i].scopeType == r.scopeType
      ensures held[i].kind in Siblings(r.kind) - {r.kind}
    {
      assert held[i] in held;
      LockTellsScope(held[i], r);
    }
    var kinds := seq(|held|, i requires 0 <= i < |held| => held[i].kind);
    DistinctCount(kinds);
    SubsetSize((set k | k in kinds), Siblings(r.kind) - {r.kind});
  }

  /** The kinds that take the same lock for the same scope. */
  function Siblings(kind: JobKind): set<JobKind> {
    if LaneForJobKind(kind) == Sync then {SyncAccountFull, SyncAccountDelta, SyncAccountBackfill, SyncAccountReconcile}
    else if LaneForJobKind(kind) == RootLlm then {ClassifyAccountBacklog, ClassifyRootMessages}
    else if kind.ProcessFinanceUpload? then {ProcessFinanceUpload}
    else {ClassifyFinanceBacklog, ClassifyFinanceMessages}
  }

  lemma {:induction false} DistinctCount(kinds: seq<JobKind>)
    requires forall i, j :: 0 <= i < j < |kinds| ==> kinds[i] != kinds[j]
    ensures |set k | k in kinds| == |kinds|
  {
    if kinds != [] {
      var n := |kinds| - 1;
      DistinctCount(kinds[..n]);
      assert kinds == kinds[..n] + [kinds[n]];
      assert (set k | k in kinds) == (set k | k in kinds[..n]) + {kinds[n]};
    }
  }

  lemma {:induction false} SubsetSize(a: set<JobKind>, b: set<JobKind>)
    requires a <= b
    ensures |a| <= |b|
  {
    assert b == a + (b - a) && a !! (b - a);
  }

  /** A window all of whose rows wait for running jobs is no longer than what these can hold back. */
  lemma {:induction false} HeldBackCount(lane: JobLane, running: seq<Job>, window: seq<Job>)
    requires lane == Sync || lane == RootLlm || lane == FinanceLlm
    requires forall r :: r in running ==> IsWellScoped(r) && r.lane == lane
    requires forall j :: j in window ==> IsWellScoped(j) && j.lane == lane && Waits(j, running)
    requires forall j, r :: j in window && r in running ==> !SameScope(j, r)
    requires DistinctScopes(window)
    ensures |window| <= PerLock(lane) * |running|
    decreases |running|
  {
    if running == [] {
      var first := FirstMember(window);
    } else {
      var n := |running| - 1;
      var r := running[n];
      var rest := Filter(window, FreeOf(r));
      FilterScopes(window, ContendsWith(r));
      FewPerLock(lane, r, Filter(window, ContendsWith(r)));
      FilterScopes(window, FreeOf(r));
      RestWaits(running, window);
      HeldBackCount(lane, running[..n], rest);
      SplitLength(window, r);
      assert PerLock(lane) * (n + 1) == PerLock(lane) * n + PerLock(lane);
    }
  }

  lemma RestWaits(running: seq<Job>, window: seq<Job>)
    requires running != [] && forall j :: j in window ==> Waits(j, running)
    ensures forall j :: j in window && !Contend(j, running[|running| - 1]) ==> Waits(j, running[..|running| - 1])
  {
    var (front, last) := (running[..|running| - 1], running[|running| - 1]);
    forall j | j in window && !Contend(j, last) ensures Waits(j, front) {
    }
  }

  lemma {:induction false} FilterScopes(window: seq<Job>, p: Job -> bool)
    requires DistinctScopes(window)
    ensures DistinctScopes(Filter(window, p))
  {
    if window != [] {
      var n := |window| - 1;
      FilterScopes(window[..n], p);
      var front := Filter(window[..n], p);
      forall i | 0 <= i < |front| ensures !SameScope(front[i], window[n]) && !SameScope(window[n], front[i]) {
        assert front[i] in front;
        var k :| 0 <= k < n && window[k] == front[i];
      }
    }
  }

  lemma {:induction false} SplitLength(window: seq<Job>, r: Job)
    ensures |window| == |Filter(window, ContendsWith(r))| + |Filter(window, FreeOf(r))|
  {
    if window != [] {
      SplitLength(window[..|window| - 1], r);
    }
  }

  /** The rows of a window are different rows of the table, so no two share a scope with each other or a running row. */
  lemma WindowScopes(rows: seq<Job>, lane: JobLane, now: int, window: seq<Job>)
    requires KeysUnique(rows) && IsLaneWindow(rows, lane, now, window)
    ensures DistinctScopes(window)
    ensures forall j, r :: j in window && r in RunningRows(rows) ==> !SameScope(j, r)
  {
    var eligible := EligibleInLane(rows, lane, now);
    FilterDistinct(rows, EligibleIn(lane, now));
    forall i, j | 0 <= i < j < |window| ensures !SameScope(window[i], window[j]) && !SameScope(window[j], window[i]) {
      MultiplicityAtMostOne(eligible, window[i]);
      RepetitionCounts(window, i, j);
      assert multiset(window)[window[i]] <= multiset(eligible)[window[i]];
      assert window[i] in window && window[j] in window;
      OpenRowsDiffer(rows, window[i], window[j]);
    }
    forall j, r | j in window && r in RunningRows(rows) ensures !SameScope(j, r) {
      assert j in eligible;
      OpenRowsDiffer(rows, j, r);
    }
  }

  lemma OpenRowsDiffer(rows: seq<Job>, a: Job, b: Job)
    requires KeysUnique(rows) && a in rows && b in rows && a != b && IsOpen(a) && IsOpen(b)
    ensures !SameScope(a, b) && !SameScope(b, a)
  {
    var i :| 0 <= i < |rows| && rows[i] == a;
    var j :| 0 <= j < |rows| && rows[j] == b;
    assert !SameScope(rows[Min(i, j)], rows[Max(i, j)]);
  }

  /** A row of a lane with room that is not compatible waits for the lock of a running row of its own lane. */
  lemma WaitsForLock(cfg: Config, rows: seq<Job>, c: Job) returns (r: Job)
    requires WellScoped(rows) && c in rows && |RunningInLane(rows, c.lane)| < LaneCap(cfg, c.lane)
    requires !IsCompatibleWithRunning(cfg, c, RunningRows(rows))
    ensures r in RunningInLane(rows, c.lane) && Contend(c, r)
  {
    FilterTwice(rows, IsRunning, InLane(c.lane), RunningIn(c.lane));
    var lock :| lock in ResourceLocks(c) && lock in HeldLocks(RunningRows(rows));
    r :| r in RunningRows(rows) && lock in ResourceLocks(r);
    if r.lane != c.lane {
      LocksOfLanesDisjoint(c, r);
    }
  }

  /** A compatible candidate finds room in its lane, and another one no job holding its lock. */
  lemma CompatibleHasRoom(cfg: Config, rows: seq<Job>, r: Job)
    requires IsCompatibleWithRunning(cfg, r, RunningRows(rows))
    ensures |RunningInLane(rows, r.lane)| < LaneCap(cfg, r.lane)
    ensures forall q :: q in RunningInLane(rows, r.lane) ==> !Contend(r, q)
  {
    FilterTwice(rows, IsRunning, InLane(r.lane), RunningIn(r.lane));
    forall q | q in RunningInLane(rows, r.lane) ensures !Contend(r, q) {
      assert q in RunningRows(rows) && LockName(q.kind, q.scopeId) in ResourceLocks(q);
      assert LockName(q.kind, q.scopeId) in HeldLocks(RunningRows(rows));
      assert LockName(r.kind, r.scopeId) in ResourceLocks(r);
    }
  }

  /**
   * Other lanes never matter: a queued row is compatible exactly when its own lane has room and its lock is free there.
   */
  lemma CompatibleWithinLane(cfg: Config, rows: seq<Job>, c: Job)
    requires WellScoped(rows) && c in rows
    ensures IsCompatibleWithRunning(cfg, c, RunningRows(rows))
       <==> |RunningInLane(rows, c.lane)| < LaneCap(cfg, c.lane) && forall q :: q in RunningInLane(rows, c.lane) ==>
         !Contend(c, q)
  {
    if IsCompatibleWithRunning(cfg, c, RunningRows(rows)) {
      CompatibleHasRoom(cfg, rows, c);
    } else if |RunningInLane(rows, c.lane)| < LaneCap(cfg, c.lane) {
      var q := WaitsForLock(cfg, rows, c);
    }
  }

  /** A full window without a compatible row, although its lane has room and a compatible candidate. */
  ghost predicate Hides(cfg: Config, rows: seq<Job>, now: int, lane: JobLane, window: seq<Job>, r: Job) {
    && OpenForClaim(cfg, rows) && IsLaneWindow(rows, lane, now, window) && |window| == WINDOW
    && r in EligibleInLane(rows, lane, now) && IsCompatibleWithRunning(cfg, r, RunningRows(rows))
    && forall j :: j in window ==> !IsCompatibleWithRunning(cfg, j, RunningRows(rows))
  }

  /** A window that does not stand for a candidate hides it. */
  lemma NotStandingMeansHiding(cfg: Config, rows: seq<Job>, now: int, lane: JobLane, window: seq<Job>, r: Job)
    requires OpenForClaim(cfg, rows) && IsLaneWindow(rows, lane, now, window)
    requires r in EligibleInLane(rows, lane, now) && IsCompatibleWithRunning(cfg, r, RunningRows(rows))
    requires !exists s :: Precedes(cfg, rows, window, s, r)
    ensures Hides(cfg, rows, now, lane, window, r)
  {
    assert r in window ==> Precedes(cfg, rows, window, r, r);
    forall j | j in window ensures !IsCompatibleWithRunning(cfg, j, RunningRows(rows)) {
      assert !Precedes(cfg, rows, window, j, r);
    }
  }

  lemma HiddenWindowWaits(cfg: Config, rows: seq<Job>, now: int, lane: JobLane, window: seq<Job>, r: Job)
    requires Hides(cfg, rows, now, lane, window, r)
    ensures |RunningInLane(rows, lane)| <= Busiest(cfg, lane)
    ensures forall j :: j in window ==> Waits(j, RunningInLane(rows, lane))
    ensures forall q :: q in RunningInLane(rows, lane) ==> !Contend(r, q)
  {
    CompatibleHasRoom(cfg, rows, r);
    RunningInLaneAreRunning(rows, lane);
    forall j | j in window ensures Waits(j, RunningInLane(rows, lane)) {
      assert j in EligibleInLane(rows, lane, now);
      var q := WaitsForLock(cfg, rows, j);
    }
  }

  lemma {:induction false} RunningInLaneAreRunning(rows: seq<Job>, lane: JobLane)
    ensures |RunningInLane(rows, lane)| <= |RunningRows(rows)|
  {
    if rows != [] {
      RunningInLaneAreRunning(rows[..|rows| - 1], lane);
    }
  }

  /** In the per-account lanes a hidden candidate needs more running jobs than the caps allow. */
  lemma AccountLanesHideNothing(cfg: Config, rows: seq<Job>, now: int, lane: JobLane, window: seq<Job>, r: Job)
    requires lane == Sync || lane == RootLlm || lane == FinanceLlm
    requires Hides(cfg, rows, now, lane, window, r)
    ensures !WindowSuffices(cfg, lane)
  {
    HiddenWindowWaits(cfg, rows, now, lane, window, r);
    WindowScopes(rows, lane, now, window);
    HeldBackCount(lane, RunningInLane(rows, lane), window);
    CountExceedsCaps(cfg, lane, |RunningInLane(rows, lane)|);
  }

  lemma CountExceedsCaps(cfg: Config, lane: JobLane, running: nat)
    requires lane == Sync || lane == RootLlm || lane == FinanceLlm
    requires running <= Busiest(cfg, lane) && WINDOW <= PerLock(lane) * running
    ensures !WindowSuffices(cfg, lane)
  {
  }

  /** The running job of the lane that the first or second row of a hiding window waits for. */
  lemma Blocker(cfg: Config, rows: seq<Job>, now: int, lane: JobLane, window: seq<Job>, r: Job, i: nat) returns (q: Job)
    requires Hides(cfg, rows, now, lane, window, r) && i < 2
    ensures q in RunningInLane(rows, lane) && IsWellScoped(q) && q.lane == lane && Contend(window[i], q)
    ensures !Contend(r, q)
    ensures IsWellScoped(window[i]) && window[i].lane == lane && IsWellScoped(r) && r.lane == lane
    ensures !SameScope(window[0], q) && !SameScope(window[1], q) && !SameScope(window[0], window[1])
  {
    HiddenWindowWaits(cfg, rows, now, lane, window, r);
    WindowScopes(rows, lane, now, window);
    assert window[0] in window && window[1] in window && Waits(window[i], RunningInLane(rows, lane));
    q :| q in RunningInLane(rows, lane) && Contend(window[i], q);
    assert q in RunningRows(rows) && window[i] in EligibleInLane(rows, lane, now);
  }

  /** Two rows of one window cannot both wait for a review lock: a scope id has at most two scopes. */
  lemma ReviewLaneHidesNothing(cfg: Config, rows: seq<Job>, now: int, window: seq<Job>, r: Job)
    ensures !Hides(cfg, rows, now, ReviewLlm, window, r)
  {
    if Hides(cfg, rows, now, ReviewLlm, window, r) {
      var q0 := Blocker(cfg, rows, now, ReviewLlm, window, r, 0);
      var q1 := Blocker(cfg, rows, now, ReviewLlm, window, r, 1);
      LockTellsScope(window[0], q0);
      LockTellsScope(window[1], q1);
    }
  }

  /** A running overseer job holds back nobody: its scope has no other open row. */
  lemma OverseerLaneHidesNothing(cfg: Config, rows: seq<Job>, now: int, window: seq<Job>, r: Job)
    ensures !Hides(cfg, rows, now, Overseer, window, r)
  {
    if Hides(cfg, rows, now, Overseer, window, r) {
      var q := Blocker(cfg, rows, now, Overseer, window, r, 0);
      assert LockName(window[0].kind, window[0].scopeId)[0] == if window[0].kind.RebuildOverseer? then 'o' else 'f';
      assert LockName(q.kind, q.scopeId)[0] == if q.kind.RebuildOverseer? then 'o' else 'f';
      if window[0].kind.RebuildOverseer? {
        LockTellsScope(window[0], q);
      }
    }
  }

  /** Every export or report job holds the lock of the whole lane. */
  lemma ExportLaneHidesNothing(cfg: Config, rows: seq<Job>, now: int, window: seq<Job>, r: Job)
    ensures !Hides(cfg, rows, now, ExportReport, window, r)
  {
    if Hides(cfg, rows, now, ExportReport, window, r) {
      var q := Blocker(cfg, rows, now, ExportReport, window, r, 0);
    }
  }

  /** A hidden materialize job needs another one at work. */
  lemma MaterializeHidesBehindOne(cfg: Config, rows: seq<Job>, now: int, window: seq<Job>, r: Job)
    requires Hides(cfg, rows, now, Materialize, window, r)
    ensures !WindowSuffices(cfg, Materialize)
  {
    var q := Blocker(cfg, rows, now, Materialize, window, r, 0);
    HiddenWindowWaits(cfg, rows, now, Materialize, window, r);
  }

  lemma HidingNeedsCaps(cfg: Config, rows: seq<Job>, now: int, lane: JobLane, window: seq<Job>, r: Job)
    requires Hides(cfg, rows, now, lane, window, r)
    ensures !WindowSuffices(cfg, lane)
  {
    match lane
    case Sync | RootLlm | FinanceLlm => AccountLanesHideNothing(cfg, rows, now, lane, window, r);
    case Materialize => MaterializeHidesBehindOne(cfg, rows, now, window, r);
    case ReviewLlm => ReviewLaneHidesNothing(cfg, rows, now, window, r);
    case ExportReport => ExportLaneHidesNothing(cfg, rows, now, window, r);
    case Overseer => OverseerLaneHidesNothing(cfg, rows, now, window, r);
  }

  /** Under the criterion the window loses nothing, whatever the table holds. */
  lemma SufficientCaps(cfg: Config, rows: seq<Job>, now: int, lane: JobLane, window: seq<Job>)
    requires OpenForClaim(cfg, rows) && IsLaneWindow(rows, lane, now, window) && WindowSuffices(cfg, lane)
    ensures StandsFor(cfg, rows, now, lane, window)
  {
    forall r | r in EligibleInLane(rows, lane, now) && IsCompatibleWithRunning(cfg, r, RunningRows(rows))
      ensures exists s :: Precedes(cfg, rows, window, s, r)
    {
      if !exists s :: Precedes(cfg, rows, window, s, r) {
        NotStandingMeansHiding(cfg, rows, now, lane, window, r);
        HidingNeedsCaps(cfg, rows, now, lane, window, r);
        assert false;
      }
    }
  }

  // ---------- Necessity ----------

  /** Where the criterion fails, this many running jobs can hold back a whole window. */
  function Runners(lane: JobLane): nat {
    match lane
    case Sync => 9
    case RootLlm | FinanceLlm => 25
    case _ => 1
  }

  /** Distinct account ids or artifact digests. */
  function Name(i: nat): string { seq(i + 1, _ => 'a') }

  function RunningKind(lane: JobLane): JobKind {
    match lane
    case Sync => SyncAccountFull
    case RootLlm => ClassifyAccountBacklog
    case FinanceLlm => ClassifyFinanceBacklog
    case _ => ImportFinanceArtifact
  }

  function HeldKind(lane: JobLane, j: nat): JobKind {
    match lane
    case Sync =>
      if j % 3 == 0 then SyncAccountDelta else if j % 3 == 1 then SyncAccountBackfill else SyncAccountReconcile
    case RootLlm => ClassifyRootMessages
    case FinanceLlm => ClassifyFinanceMessages
    case _ => ImportFinanceArtifact
  }

  /** The scope whose lock held-back row `j` waits for, or, among imports, its own. */
  function HeldScope(lane: JobLane, j: nat): nat {
    match lane
    case Sync => j / 3
    case RootLlm | FinanceLlm => j
    case _ => j + 1
  }

  function QueuedRow(id: nat, kind: JobKind, scopeId: string, createdAt: int): Job {
    var scopeType := if LaneForJobKind(kind) == Materialize then "system" else "account";
    Job(id, kind, scopeType, scopeId, Queued, LaneForJobKind(kind), 100, createdAt, None, None, None, 0, None, None,
        None, 0, 0)
  }

  /** Row `k` of the table: first the running jobs, then 25 rows behind them, then one that could run. */
  function CrowdedRow(lane: JobLane, k: nat): Job {
    var n := Runners(lane);
    if k < n then QueuedRow(k, RunningKind(lane), Name(k), 0).(status := Running, lease := Some(0))
    else if k < n + WINDOW then QueuedRow(k, HeldKind(lane, k - n), Name(HeldScope(lane, k - n)), 0)
    else if lane == Materialize then QueuedRow(k, RebuildCategoryAssignments, "categories", 1)
    else QueuedRow(k, RunningKind(lane), Name(n), 1)
  }

  function CrowdedRows(lane: JobLane): seq<Job> {
    seq(Runners(lane) + WINDOW + 1, k requires 0 <= k < Runners(lane) + WINDOW + 1 => CrowdedRow(lane, k))
  }

  predicate Crowdable(lane: JobLane) { lane == Sync || lane == RootLlm || lane == FinanceLlm || lane == Materialize }

  lemma NamesDiffer(i: nat, j: nat)
    ensures Name(i) == Name(j) <==> i == j
    ensures Name(i) !in RESERVED
  {
    assert |Name(i)| == i + 1 && |Name(j)| == j + 1;
    assert Name(i)[0] == 'a';
    assert RESERVED[0][0] == 'm' && RESERVED[1][0] == 'e' && RESERVED[2][0] == 'm';
  }

  lemma CrowdedRowIsWellScoped(lane: JobLane, k: nat)
    requires Crowdable(lane)
    ensures IsWellScoped(CrowdedRow(lane, k)) && CrowdedRow(lane, k).lane == lane
  {
    var n := Runners(lane);
    if k < n {
      NamedRowIsWellScoped(lane, k, RunningKind(lane), k, 0);
    } else if k < n + WINDOW {
      NamedRowIsWellScoped(lane, k, HeldKind(lane, k - n), HeldScope(lane, k - n), 0);
    } else if lane != Materialize {
      NamedRowIsWellScoped(lane, k, RunningKind(lane), n, 1);
    }
  }

  lemma NamedRowIsWellScoped(lane: JobLane, id: nat, kind: JobKind, i: nat, createdAt: int)
    requires Crowdable(lane) && (kind == RunningKind(lane) || exists j: nat :: kind == HeldKind(lane, j))
    ensures IsWellScoped(QueuedRow(id, kind, Name(i), createdAt)) && LaneForJobKind(kind) == lane
  {
    NamesDiffer(i, 0);
  }

  lemma CrowdedScopesDiffer(lane: JobLane, i: nat, j: nat)
    requires Crowdable(lane) && i < j < Runners(lane) + WINDOW + 1
    ensures !SameScope(CrowdedRow(lane, i), CrowdedRow(lane, j))
  {
    var n := Runners(lane);
    var a := if i < n then i else if i < n + WINDOW then HeldScope(lane, i - n) else n;
    var b := if j < n then j else if j < n + WINDOW then HeldScope(lane, j - n) else n;
    NamesDiffer(a, b);
  }

  lemma CrowdedLocksDiffer(lane: JobLane, i: nat, j: nat)
    requires Crowdable(lane) && i < j < Runners(lane) + WINDOW + 1 && i < Runners(lane)
    requires j < Runners(lane) || j == Runners(lane) + WINDOW
    ensures !Contend(CrowdedRow(lane, i), CrowdedRow(lane, j)) && !Contend(CrowdedRow(lane, j), CrowdedRow(lane, i))
  {
    var (a, b) := (CrowdedRow(lane, i), CrowdedRow(lane, j));
    CrowdedRowIsWellScoped(lane, i);
    CrowdedRowIsWellScoped(lane, j);
    if lane == Materialize {
      assert LockName(a.kind, a.scopeId)[0] == 'f' && LockName(b.kind, b.scopeId)[0] == 'c';
    } else {
      NamesDiffer(i, if j < Runners(lane) then j else Runners(lane));
      if Contend(a, b) {
        LockTellsScope(a, b);
      }
    }
  }

  /** Each of the 25 rows waits for one of the running jobs. */
  lemma CrowdedRowWaits(lane: JobLane, j: nat) returns (i: nat)
    requires Crowdable(lane) && Runners(lane) <= j < Runners(lane) + WINDOW
    ensures i < Runners(lane) && Contend(CrowdedRow(lane, j), CrowdedRow(lane, i))
  {
    i := if lane == Materialize then 0 else HeldScope(lane, j - Runners(lane));
    KindsShareLock(lane, j - Runners(lane), Name(i));
  }

  lemma KindsShareLock(lane: JobLane, j: nat, scopeId: string)
    requires Crowdable(lane)
    ensures LockName(HeldKind(lane, j), scopeId) == LockName(RunningKind(lane), scopeId)
  {
  }

  lemma CrowdedKeys(lane: JobLane)
    requires Crowdable(lane)
    ensures KeysUnique(CrowdedRows(lane)) && WellScoped(CrowdedRows(lane))
  {
    var rows := CrowdedRows(lane);
    forall i, j | 0 <= i < j < |rows| ensures rows[i].id != rows[j].id && !SameScope(rows[i], rows[j]) {
      CrowdedScopesDiffer(lane, i, j);
    }
    forall j | j in rows ensures IsWellScoped(j) {
      var k :| 0 <= k < |rows| && rows[k] == j;
      CrowdedRowIsWellScoped(lane, k);
    }
  }

  lemma CrowdedLocks(lane: JobLane)
    requires Crowdable(lane)
    ensures LocksDisjoint(CrowdedRows(lane)) && RunningLeased(CrowdedRows(lane))
  {
    var rows := CrowdedRows(lane);
    forall i, j | 0 <= i < j < |rows| && IsRunning(rows[i]) && IsRunning(rows[j])
      ensures !SharesLock(rows[i], rows[j])
    {
      CrowdedLocksDiffer(lane, i, j);
    }
  }

  lemma PartFilters(running: seq<Job>, queued: seq<Job>, lane: JobLane, other: JobLane)
    requires forall j :: j in running ==> IsRunning(j) && j.lane == lane
    requires forall j :: j in queued ==> j.status == Queued && j.runAfterAt.None? && j.lane == lane
    ensures RunningRows(running + queued) == running
    ensures RunningInLane(running + queued, other) == if other == lane then running else []
    ensures EligibleInLane(running + queued, other, 0) == if other == lane then queued else []
  {
    FilterConcat(running, queued, IsRunning);
    FilterAll(running, IsRunning);
    FilterNone(queued, IsRunning);
    FilterConcat(running, queued, RunningIn(other));
    FilterNone(queued, RunningIn(other));
    FilterConcat(running, queued, EligibleIn(other, 0));
    FilterNone(running, EligibleIn(other, 0));
    if other == lane {
      FilterAll(running, RunningIn(other));
      FilterAll(queued, EligibleIn(other, 0));
    } else {
      FilterNone(running, RunningIn(other));
      FilterNone(queued, EligibleIn(other, 0));
    }
  }

  lemma CrowdedParts(lane: JobLane)
    requires Crowdable(lane)
    ensures var (rows, n) := (CrowdedRows(lane), Runners(lane));
            && rows == rows[..n] + rows[n..]
            && (forall j :: j in rows[..n] ==> IsRunning(j) && j.lane == lane)
            && (forall j :: j in rows[n..] ==> j.status == Queued && j.runAfterAt.None? && j.lane == lane)
  {
    var (rows, n) := (CrowdedRows(lane), Runners(lane));
    forall j | j in rows[..n] ensures IsRunning(j) && j.lane == lane {
      var k :| 0 <= k < n && rows[k] == j;
      CrowdedRowIsWellScoped(lane, k);
    }
    forall j | j in rows[n..] ensures j.status == Queued && j.runAfterAt.None? && j.lane == lane {
      var k :| n <= k < |rows| && rows[k] == j;
      CrowdedRowIsWellScoped(lane, k);
    }
  }

  lemma CrowdedFilters(lane: JobLane, other: JobLane)
    requires Crowdable(lane)
    ensures var (rows, n) := (CrowdedRows(lane), Runners(lane));
            && RunningRows(rows) == rows[..n]
            && RunningInLane(rows, other) == (if other == lane then rows[..n] else [])
            && EligibleInLane(rows, other, 0) == (if other == lane then rows[n..] else [])
  {
    var (rows, n) := (CrowdedRows(lane), Runners(lane));
    CrowdedParts(lane);
    PartFilters(rows[..n], rows[n..], lane, other);
  }

  lemma CrowdedIsOpen(cfg: Config, lane: JobLane)
    requires Crowdable(lane) && !WindowSuffices(cfg, lane)
    ensures OpenForClaim(cfg, CrowdedRows(lane)) && Runners(lane) < LaneCap(cfg, lane)
  {
    CrowdedKeys(lane);
    CrowdedLocks(lane);
    CrowdedFilters(lane, lane);
    forall other: Option<JobLane> ensures WithinCap(cfg, CrowdedRows(lane), other) {
      if other.Some? {
        CrowdedFilters(lane, other.value);
      }
    }
  }

  function CrowdedWindow(lane: JobLane): seq<Job> { CrowdedRows(lane)[Runners(lane)..Runners(lane) + WINDOW] }

  function HiddenRow(lane: JobLane): Job { CrowdedRow(lane, Runners(lane) + WINDOW) }

  /** All eligible rows but one that comes later than all of them. */
  lemma AllButLastIsWindow(rows: seq<Job>, lane: JobLane, now: int, window: seq<Job>, last: Job)
    requires EligibleInLane(rows, lane, now) == window + [last] && |window| == WINDOW
    requires forall j :: j in window ==> j.priority == 100 && j.createdAt == 0
    requires last.priority == 100 && last.createdAt == 1
    ensures IsLaneWindow(rows, lane, now, window)
  {
    forall i, j | 0 <= i < j < |window| ensures NoLater(window[i], window[j]) {
      assert window[i] in window && window[j] in window;
    }
    assert multiset(window + [last]) == multiset(window) + multiset{last};
  }

  lemma CrowdedWindowRows(lane: JobLane)
    requires Crowdable(lane)
    ensures |CrowdedWindow(lane)| == WINDOW
    ensures CrowdedRows(lane)[Runners(lane)..] == CrowdedWindow(lane) + [HiddenRow(lane)]
    ensures forall j :: j in CrowdedWindow(lane) ==> exists k :: IsHeldRow(lane, k, j)
    ensures HiddenRow(lane).priority == 100 && HiddenRow(lane).createdAt == 1
  {
    var (rows, n) := (CrowdedRows(lane), Runners(lane));
    forall j | j in CrowdedWindow(lane) ensures exists k :: IsHeldRow(lane, k, j) {
      var k :| n <= k < n + WINDOW && rows[k] == j;
      assert IsHeldRow(lane, k, j);
    }
  }

  /** Row `k` of the table waits for one of the running jobs. */
  ghost predicate IsHeldRow(lane: JobLane, k: int, j: Job) {
    Runners(lane) <= k < Runners(lane) + WINDOW && j == CrowdedRow(lane, k)
  }

  lemma CrowdedWindowIsWindow(lane: JobLane)
    requires Crowdable(lane)
    ensures IsLaneWindow(CrowdedRows(lane), lane, 0, CrowdedWindow(lane))
  {
    CrowdedFilters(lane, lane);
    CrowdedWindowRows(lane);
    forall j | j in CrowdedWindow(lane) ensures j.priority == 100 && j.createdAt == 0 {
      var k :| IsHeldRow(lane, k, j);
    }
    AllButLastIsWindow(CrowdedRows(lane), lane, 0, CrowdedWindow(lane), HiddenRow(lane));
  }

  lemma HeldLockExcludes(cfg: Config, j: Job, q: Job, running: seq<Job>)
    requires q in running && Contend(j, q)
    ensures !IsCompatibleWithRunning(cfg, j, running)
  {
    var lock := LockName(j.kind, j.scopeId);
    assert lock in ResourceLocks(q) && lock in ResourceLocks(j);
  }

  lemma CrowdedWindowWaits(cfg: Config, lane: JobLane)
    requires Crowdable(lane)
    ensures forall j :: j in CrowdedWindow(lane) ==> !IsCompatibleWithRunning(cfg, j, RunningRows(CrowdedRows(lane)))
  {
    CrowdedFilters(lane, lane);
    CrowdedWindowRows(lane);
    forall j | j in CrowdedWindow(lane) ensures !IsCompatibleWithRunning(cfg, j, RunningRows(CrowdedRows(lane))) {
      var k :| IsHeldRow(lane, k, j);
      HeldRowExcluded(cfg, lane, k);
    }
  }

  lemma HeldRowExcluded(cfg: Config, lane: JobLane, k: nat)
    requires Crowdable(lane) && Runners(lane) <= k < Runners(lane) + WINDOW
    ensures !IsCompatibleWithRunning(cfg, CrowdedRow(lane, k), CrowdedRows(lane)[..Runners(lane)])
  {
    var i := CrowdedRowWaits(lane, k);
    var running := CrowdedRows(lane)[..Runners(lane)];
    assert running[i] == CrowdedRow(lane, i);
    HeldLockExcludes(cfg, CrowdedRow(lane, k), running[i], running);
  }

  lemma FreeLockAdmits(cfg: Config, r: Job, running: seq<Job>)
    requires forall q :: q in running ==> q.lane == r.lane && !Contend(r, q)
    requires |running| < LaneCap(cfg, r.lane)
    ensures IsCompatibleWithRunning(cfg, r, running)
  {
    FilterAll(running, InLane(r.lane));
  }

  lemma HiddenRowContends(lane: JobLane)
    requires Crowdable(lane)
    ensures forall q :: q in CrowdedRows(lane)[..Runners(lane)] ==> !Contend(HiddenRow(lane), q)
  {
    var (rows, n) := (CrowdedRows(lane), Runners(lane));
    forall q | q in rows[..n] ensures !Contend(HiddenRow(lane), q) {
      var i :| 0 <= i < n && rows[i] == q;
      CrowdedLocksDiffer(lane, i, n + WINDOW);
    }
  }

  lemma HiddenRowCouldRun(cfg: Config, lane: JobLane)
    requires Crowdable(lane) && Runners(lane) < LaneCap(cfg, lane)
    ensures IsCompatibleWithRunning(cfg, HiddenRow(lane), RunningRows(CrowdedRows(lane)))
  {
    CrowdedFilters(lane, lane);
    CrowdedParts(lane);
    CrowdedRowIsWellScoped(lane, Runners(lane) + WINDOW);
    HiddenRowContends(lane);
    FreeLockAdmits(cfg, HiddenRow(lane), CrowdedRows(lane)[..Runners(lane)]);
  }

  /** Where the criterion fails there is a safe table whose window hides a job that could run. */
  lemma CrowdedTableHides(cfg: Config, lane: JobLane)
    requires !WindowSuffices(cfg, lane)
    ensures Crowdable(lane) && Hides(cfg, CrowdedRows(lane), 0, lane, CrowdedWindow(lane), HiddenRow(lane))
  {
    CrowdedIsOpen(cfg, lane);
    CrowdedFilters(lane, lane);
    CrowdedWindowIsWindow(lane);
    CrowdedWindowWaits(cfg, lane);
    HiddenRowCouldRun(cfg, lane);
    var rows := CrowdedRows(lane);
    assert rows[Runners(lane)..][WINDOW] == HiddenRow(lane);
  }

  /**
   * A lane's window loses nothing, in any safe table and whatever is queued, exactly when the caps meet the criterion.
   */
  lemma WindowLosesNothing(cfg: Config, lane: JobLane)
    ensures LosesNothing(cfg, lane) <==> WindowSuffices(cfg, lane)
  {
    if WindowSuffices(cfg, lane) {
      forall rows, now, window | OpenForClaim(cfg, rows) && IsLaneWindow(rows, lane, now, window)
        ensures StandsFor(cfg, rows, now, lane, window)
      {
        SufficientCaps(cfg, rows, now, lane, window);
      }
    } else {
      CrowdedTableHides(cfg, lane);
      var (rows, window, r) := (CrowdedRows(lane), CrowdedWindow(lane), HiddenRow(lane));
      assert r in EligibleInLane(rows, lane, 0);
      assert !exists s :: Precedes(cfg, rows, window, s, r);
      assert !StandsFor(cfg, rows, 0, lane, window);
    }
  }

  // ---------- A whole claim ----------

  /** What every lane's query returned, put together. */
  ghost predicate MergedWindows(rows: seq<Job>, now: int, windows: map<JobLane, seq<Job>>, queued: seq<Job>) {
    Merges(windows, queued) && forall lane: JobLane :: HasWindow(rows, now, windows, lane)
  }

  ghost predicate Merges(windows: map<JobLane, seq<Job>>, queued: seq<Job>) {
    forall j :: j in queued <==> InWindows(windows, j)
  }

  ghost predicate HasWindow(rows: seq<Job>, now: int, windows: map<JobLane, seq<Job>>, lane: JobLane) {
    lane in windows && IsLaneWindow(rows, lane, now, windows[lane])
  }

  ghost predicate InWindows(windows: map<JobLane, seq<Job>>, j: Job) {
    exists lane: JobLane :: lane in windows && j in windows[lane]
  }

  lemma OneMoreWindow(windows: map<JobLane, seq<Job>>, lane: JobLane, window: seq<Job>, j: Job)
    requires lane !in windows
    ensures InWindows(windows[lane := window], j) <==> InWindows(windows, j) || j in window
  {
    var more := windows[lane := window];
    assert lane in more && more[lane] == window;
    if l: JobLane :| l in windows && j in windows[l] {
      assert l in more && j in more[l];
    }
  }

  /** Nothing runnable is passed over: null means the cap or no candidate, and a claim is first among all candidates. */
  ghost predicate ConservesWork(cfg: Config, rows: seq<Job>, now: int, claimed: Option<Job>) {
    var running := RunningRows(rows);
    && (claimed.None? <==> |running| >= cfg.maxConcurrency || forall r :: r in rows && IsEligible(r, now) ==>
        !IsCompatibleWithRunning(cfg, r, running))
    && (claimed.Some? ==> forall r :: r in rows && IsEligible(r, now) && IsCompatibleWithRunning(cfg, r, running) ==>
        NoLater(claimed.value, r))
  }

  /** The window of a lane stands for all its candidates: by the caps, or because it holds every one of them. */
  ghost predicate Lossless(cfg: Config, rows: seq<Job>, now: int, lane: JobLane) {
    WindowSuffices(cfg, lane) || |EligibleInLane(rows, lane, now)| <= WINDOW
  }

  /** A lossless window stands for its lane. */
  lemma LosslessStandsFor(cfg: Config, rows: seq<Job>, now: int, lane: JobLane, window: seq<Job>)
    requires OpenForClaim(cfg, rows) && IsLaneWindow(rows, lane, now, window) && Lossless(cfg, rows, now, lane)
    ensures StandsFor(cfg, rows, now, lane, window)
  {
    if WindowSuffices(cfg, lane) {
      SufficientCaps(cfg, rows, now, lane, window);
    } else {
      WholeWindowStandsFor(cfg, rows, now, lane, window);
    }
  }

  lemma WholeWindowStandsFor(cfg: Config, rows: seq<Job>, now: int, lane: JobLane, window: seq<Job>)
    requires IsLaneWindow(rows, lane, now, window) && |EligibleInLane(rows, lane, now)| <= WINDOW
    ensures StandsFor(cfg, rows, now, lane, window)
  {
    forall r | r in EligibleInLane(rows, lane, now) && IsCompatibleWithRunning(cfg, r, RunningRows(rows))
      ensures exists s :: Precedes(cfg, rows, window, s, r)
    {
      assert Precedes(cfg, rows, window, r, r);
    }
  }

  lemma StandIn(cfg: Config, rows: seq<Job>, now: int, lane: JobLane, window: seq<Job>, r: Job) returns (s: Job)
    requires StandsFor(cfg, rows, now, lane, window)
    requires r in EligibleInLane(rows, lane, now) && IsCompatibleWithRunning(cfg, r, RunningRows(rows))
    ensures Precedes(cfg, rows, window, s, r)
  {
    s :| Precedes(cfg, rows, window, s, r);
  }

  /** A row that comes first among the compatible ones queued comes first among all compatible candidates of a lane. */
  lemma ChoicePrecedes(cfg: Config, rows: seq<Job>, now: int, window: seq<Job>, queued: seq<Job>, choice: Option<Job>,
                       r: Job)
    requires ChosenFrom(cfg, rows, queued, choice) && StandsFor(cfg, rows, now, r.lane, window)
    requires forall j :: j in window ==> j in queued
    requires r in rows && IsEligible(r, now) && IsCompatibleWithRunning(cfg, r, RunningRows(rows))
    ensures choice.Some? && NoLater(choice.value, r)
  {
    var s := StandIn(cfg, rows, now, r.lane, window, r);
  }

  /**
   * Work conservation. When every lane's window is lossless, nothing is claimed only if no eligible row anywhere is
   * compatible, and what is claimed is first among all of them.
   */
  lemma WorkConserving(cfg: Config, rows: seq<Job>, now: int, windows: map<JobLane, seq<Job>>, queued: seq<Job>,
                       choice: Option<Job>)
    requires OpenForClaim(cfg, rows) && MergedWindows(rows, now, windows, queued)
    requires ChosenFrom(cfg, rows, queued, choice)
    requires forall lane: JobLane :: Lossless(cfg, rows, now, lane)
    ensures ConservesWork(cfg, rows, now, choice)
  {
    forall r | r in rows && IsEligible(r, now) && IsCompatibleWithRunning(cfg, r, RunningRows(rows))
      ensures choice.Some? && NoLater(choice.value, r)
    {
      assert HasWindow(rows, now, windows, r.lane);
      LosslessStandsFor(cfg, rows, now, r.lane, windows[r.lane]);
      ChoicePrecedes(cfg, rows, now, windows[r.lane], queued, choice, r);
    }
    if choice.Some? {
      WindowRowIsEligible(rows, now, windows, queued, choice.value);
    }
  }

  lemma WindowRowIsEligible(rows: seq<Job>, now: int, windows: map<JobLane, seq<Job>>, queued: seq<Job>, c: Job)
    requires MergedWindows(rows, now, windows, queued) && c in queued
    ensures c in rows && IsEligible(c, now)
  {
    var lane: JobLane :| lane in windows && c in windows[lane];
    assert HasWindow(rows, now, windows, lane);
    assert c in EligibleInLane(rows, lane, now);
  }

  /** A claim under these caps conserves work, whatever the table holds and whichever way ties are broken. */
  ghost predicate AlwaysConserves(cfg: Config) {
    forall rows, now, windows, queued, choice ::
      OpenForClaim(cfg, rows) && MergedWindows(rows, now, windows, queued) && ChosenFrom(cfg, rows, queued, choice)
      ==> ConservesWork(cfg, rows, now, choice)
  }

  /** Claims conserve work in every safe table exactly when the caps of every lane meet the criterion. */
  lemma ClaimsConserveWork(cfg: Config)
    ensures AlwaysConserves(cfg) <==> forall lane :: WindowSuffices(cfg, lane)
  {
    if lane :| !WindowSuffices(cfg, lane) {
      CrowdedClaimLosesWork(cfg, lane);
    } else {
      forall rows, now, windows, queued, choice
        | OpenForClaim(cfg, rows) && MergedWindows(rows, now, windows, queued) && ChosenFrom(cfg, rows, queued, choice)
        ensures ConservesWork(cfg, rows, now, choice)
      {
        WorkConserving(cfg, rows, now, windows, queued, choice);
      }
    }
  }

  function CrowdedWindows(lane: JobLane): map<JobLane, seq<Job>> {
    map l | l in ALL_LANES :: if l == lane then CrowdedWindow(lane) else []
  }

  lemma CrowdedLaneHasWindow(lane: JobLane, l: JobLane)
    requires Crowdable(lane)
    ensures HasWindow(CrowdedRows(lane), 0, CrowdedWindows(lane), l)
  {
    EveryLaneListed(l);
    if l == lane {
      CrowdedWindowIsWindow(lane);
    } else {
      CrowdedFilters(lane, l);
      EmptyWindow(CrowdedRows(lane), l, 0);
    }
  }

  lemma EmptyWindow(rows: seq<Job>, lane: JobLane, now: int)
    requires EligibleInLane(rows, lane, now) == []
    ensures IsLaneWindow(rows, lane, now, [])
  {
  }

  lemma CrowdedWindowsMerge(lane: JobLane)
    requires Crowdable(lane)
    ensures MergedWindows(CrowdedRows(lane), 0, CrowdedWindows(lane), CrowdedWindow(lane))
  {
    var windows := CrowdedWindows(lane);
    EveryLaneListed(lane);
    forall l: JobLane ensures HasWindow(CrowdedRows(lane), 0, windows, l) {
      CrowdedLaneHasWindow(lane, l);
    }
    forall j ensures j in CrowdedWindow(lane) <==> InWindows(windows, j) {
      assert lane in windows && windows[lane] == CrowdedWindow(lane);
    }
  }

  lemma CrowdedClaimLosesWork(cfg: Config, lane: JobLane)
    requires !WindowSuffices(cfg, lane)
    ensures !AlwaysConserves(cfg)
  {
    CrowdedTableHides(cfg, lane);
    CrowdedWindowsMerge(lane);
    var (rows, r) := (CrowdedRows(lane), HiddenRow(lane));
    assert ChosenFrom(cfg, rows, CrowdedWindow(lane), None);
    assert r in rows && IsEligible(r, 0);
    assert !ConservesWork(cfg, rows, 0, None);
  }

  /** The lane caps that zmail.toml ships, under its global cap of 8. */
  const SHIPPED_CAPS: map<JobLane, int> :=
    map[Sync := 2, RootLlm := 2, FinanceLlm := 2, ReviewLlm := 1, Materialize := 2, ExportReport := 1, Overseer := 1]

  /** Shipped, only the materialize lane can lose a job; at a global cap of 8 the sync and LLM lanes never do. */
  lemma ShippedCapsSuffice(cfg: Config, lane: JobLane)
    requires cfg.maxConcurrency == 8
    ensures lane != Materialize ==> WindowSuffices(cfg, lane)
    ensures cfg.laneCaps == SHIPPED_CAPS ==> !WindowSuffices(cfg, Materialize)
  {
  }

  /** A step that inserts, if anything, a well-scoped row. */
  ghost predicate ScopedStep(cfg: Config, rows: seq<Job>, rows': seq<Job>) {
    Step(cfg, rows, rows') && (|rows'| > |rows| ==> IsWellScoped(rows'[|rows|]))
  }

  /** So the table a claim meets is safe and well scoped in every run that queues well-scoped rows. */
  lemma {:induction false} ScopedInEveryRun(cfg: Config, run: seq<seq<Job>>, n: nat)
    requires n < |run| && run[0] == []
    requires forall i :: 0 <= i < |run| - 1 ==> ScopedStep(cfg, run[i], run[i + 1])
    ensures |RunningRows(run[n])| < cfg.maxConcurrency ==> OpenForClaim(cfg, run[n])
    ensures Safe(cfg, run[n]) && WellScoped(run[n])
  {
    if n > 0 {
      ScopedInEveryRun(cfg, run, n - 1);
      StepKeepsSafe(cfg, run[n - 1], run[n]);
      StepKeepsScopes(cfg, run[n - 1], run[n]);
    }
  }

  lemma StepKeepsScopes(cfg: Config, rows: seq<Job>, rows': seq<Job>)
    requires ScopedStep(cfg, rows, rows') && WellScoped(rows)
    ensures WellScoped(rows')
  {
    forall j | j in rows' ensures IsWellScoped(j) {
      var i :| 0 <= i < |rows'| && rows'[i] == j;
      assert i < |rows| ==> rows[i] in rows;
      assert i < |rows| ==> SameIdentity(rows[i], rows'[i]);
    }
  }
}
