/** The pure rules of lib/jobs.ts: lanes, resource locks, eligibility, compatibility and claim order. */
module JobRules {
  import opened Common
  import opened Sorting

  datatype JobKind =
    | RebuildOverseer | GenerateFinanceMappingCandidates | RebuildFinanceKnowledge | RebuildFinanceRollups
    | ImportOperatorRegistry | ReconcileRegistrySuggestions | ImportFinanceArtifact | ProcessFinanceUpload
    | ExportFinanceBeancount | GenerateTaxPersonalPackage | GenerateTaxBusinessQuarterPackage
    | SyncAccountFull | SyncAccountDelta | SyncAccountBackfill | SyncAccountReconcile
    | ClassifyAccountBacklog | ClassifyRootMessages | ClassifyFinanceBacklog | ClassifyFinanceMessages
    | ClassifyReviewBacklog | RebuildCategoryAssignments

  datatype JobLane = Sync | RootLlm | FinanceLlm | ReviewLlm | Materialize | ExportReport | Overseer

  const ALL_LANES: seq<JobLane> := [Sync, RootLlm, FinanceLlm, ReviewLlm, Materialize, ExportReport, Overseer]

  lemma EveryLaneListed(lane: JobLane)
    ensures lane in ALL_LANES
  {
    match lane
    case Sync => assert ALL_LANES[0] == lane;
    case RootLlm => assert ALL_LANES[1] == lane;
    case FinanceLlm => assert ALL_LANES[2] == lane;
    case ReviewLlm => assert ALL_LANES[3] == lane;
    case Materialize => assert ALL_LANES[4] == lane;
    case ExportReport => assert ALL_LANES[5] == lane;
    case Overseer => assert ALL_LANES[6] == lane;
  }

  datatype Status = Queued | Running | Complete | Failed

  datatype Job = Job(
    id: nat,
    kind: JobKind,
    scopeType: string,
    scopeId: string,
    status: Status,
    lane: JobLane,
    priority: int,
    createdAt: int,
    runAfterAt: Option<int>,
    lease: Option<int>,
    claimOwner: Option<string>,
    attempts: nat,
    startedAt: Option<int>,
    finishedAt: Option<int>,
    lastError: Option<string>,
    successCount: nat,
    errorCount: nat)

  datatype Config = Config(maxConcurrency: nat, laneCaps: map<JobLane, int>, leaseMs: nat)

  function LaneForJobKind(kind: JobKind): JobLane {
    match kind
    case SyncAccountFull | SyncAccountDelta | SyncAccountBackfill | SyncAccountReconcile => Sync
    case ClassifyAccountBacklog | ClassifyRootMessages => RootLlm
    case ClassifyFinanceBacklog | ClassifyFinanceMessages | ProcessFinanceUpload => FinanceLlm
    case ClassifyReviewBacklog => ReviewLlm
    case ExportFinanceBeancount | GenerateTaxPersonalPackage | GenerateTaxBusinessQuarterPackage => ExportReport
    case GenerateFinanceMappingCandidates | RebuildOverseer => Overseer
    case RebuildFinanceKnowledge | RebuildFinanceRollups | ImportOperatorRegistry | ReconcileRegistrySuggestions
       | ImportFinanceArtifact | RebuildCategoryAssignments => Materialize
  }

  function LockName(kind: JobKind, scopeId: string): string {
    match kind
    case SyncAccountFull | SyncAccountDelta | SyncAccountBackfill | SyncAccountReconcile => "sync:" + scopeId
    case ClassifyAccountBacklog | ClassifyRootMessages => "root:" + scopeId
    case ClassifyFinanceBacklog | ClassifyFinanceMessages => "finance:" + scopeId
    case ProcessFinanceUpload => "finance_upload:" + scopeId
    case ClassifyReviewBacklog => "review:" + scopeId
    case RebuildFinanceKnowledge | RebuildFinanceRollups | ImportOperatorRegistry | ReconcileRegistrySuggestions
       | ImportFinanceArtifact => "finance:materialize"
    case ExportFinanceBeancount | GenerateTaxPersonalPackage | GenerateTaxBusinessQuarterPackage =>
      "finance:export-report"
    case GenerateFinanceMappingCandidates => "finance:mapping-candidates"
    case RebuildOverseer => "overseer:" + scopeId
    case RebuildCategoryAssignments => "categories:materialize"
  }

  function ResourceLocks(job: Job): seq<string> { [LockName(job.kind, job.scopeId)] }

  function LaneCap(cfg: Config, lane: JobLane): (cap: nat)
    ensures lane !in cfg.laneCaps || cfg.laneCaps[lane] <= 1 ==> cap == 1
    ensures lane in cfg.laneCaps && cfg.laneCaps[lane] >= 1 ==> cap == cfg.laneCaps[lane]
  {
    Max(1, if lane in cfg.laneCaps then cfg.laneCaps[lane] else 1)
  }

  predicate IsRunning(j: Job) { j.status == Running }

  function InLane(lane: JobLane): Job -> bool { (j: Job) => j.lane == lane }

  function RunningIn(lane: JobLane): Job -> bool { (j: Job) => j.status == Running && j.lane == lane }

  function EligibleIn(lane: JobLane, now: int): Job -> bool { (j: Job) => IsEligible(j, now) && j.lane == lane }

  function HeldLocks(running: seq<Job>): set<string> {
    set j, lock | j in running && lock in ResourceLocks(j) :: lock
  }

  predicate IsCompatibleWithRunning(cfg: Config, candidate: Job, running: seq<Job>) {
    && |Filter(running, InLane(candidate.lane))| < LaneCap(cfg, candidate.lane)
    && forall lock :: lock in ResourceLocks(candidate) ==> lock !in HeldLocks(running)
  }

  predicate IsOpen(j: Job) { j.status == Queued || j.status == Running }

  predicate IsEligible(j: Job, now: int) {
    j.status == Queued && (j.runAfterAt.Some? ==> j.runAfterAt.value <= now)
  }

  function RunningRows(rows: seq<Job>): seq<Job> { Filter(rows, IsRunning) }

  function RunningInLane(rows: seq<Job>, lane: JobLane): seq<Job> { Filter(rows, RunningIn(lane)) }

  function EligibleInLane(rows: seq<Job>, lane: JobLane, now: int): seq<Job> { Filter(rows, EligibleIn(lane, now)) }

  /** ORDER BY priority ASC, created_at ASC. */
  predicate NoLater(a: Job, b: Job) {
    a.priority < b.priority || (a.priority == b.priority && a.createdAt <= b.createdAt)
  }

  const WINDOW := 25

  /** A possible answer of the per-lane claim query; ties may come in any order. */
  ghost predicate IsLaneWindow(rows: seq<Job>, lane: JobLane, now: int, window: seq<Job>) {
    var eligible := EligibleInLane(rows, lane, now);
    && |window| == Min(WINDOW, |eligible|)
    && Sorted(window, NoLater)
    && multiset(window) <= multiset(eligible)
    && (forall j :: j in window ==> j in eligible)
    && (forall j :: j in eligible && j !in window ==> |eligible| > WINDOW && forall k :: k in window ==> NoLater(k, j))
  }

  /** The first compatible row of the merged, sorted windows. */
  ghost predicate ChosenFrom(cfg: Config, rows: seq<Job>, queued: seq<Job>, choice: Option<Job>) {
    match choice
    case None => forall j :: j in queued ==> !IsCompatibleWithRunning(cfg, j, RunningRows(rows))
    case Some(c) =>
      && c in queued && IsCompatibleWithRunning(cfg, c, RunningRows(rows))
      && forall j :: j in queued && IsCompatibleWithRunning(cfg, j, RunningRows(rows)) ==> NoLater(c, j)
  }

  // ---------- Lock names ----------

  /** The lane a lock name belongs to, read off its text. */
  function LaneOfLock(lock: string): JobLane {
    if lock == "finance:materialize" || lock == "categories:materialize" then Materialize
    else if lock == "finance:export-report" then ExportReport
    else if lock == "finance:mapping-candidates" then Overseer
    else if "sync:" <= lock then Sync
    else if "root:" <= lock then RootLlm
    else if "review:" <= lock then ReviewLlm
    else if "overseer:" <= lock then Overseer
    else FinanceLlm
  }

  const RESERVED := ["materialize", "export-report", "mapping-candidates"]

  /** A finance classification whose account id is one of the reserved words borrows another lane's lock. */
  predicate BorrowsLock(kind: JobKind, scopeId: string) {
    (kind.ClassifyFinanceBacklog? || kind.ClassifyFinanceMessages?) && scopeId in RESERVED
  }

  lemma LockNamesLane(kind: JobKind, scopeId: string)
    ensures LaneOfLock(LockName(kind, scopeId)) == LaneForJobKind(kind) <==> !BorrowsLock(kind, scopeId)
  {
    var lock := LockName(kind, scopeId);
    if kind.ClassifyFinanceBacklog? || kind.ClassifyFinanceMessages? {
      FinanceLockNamesLane(scopeId);
    } else if kind.ProcessFinanceUpload? {
      assert lock[0] == 'f' && lock[7] == '_';
    } else if LaneForJobKind(kind) == Sync || LaneForJobKind(kind) == RootLlm || kind.ClassifyReviewBacklog?
      || kind.RebuildOverseer? {
      PrefixedLockNamesLane(kind, scopeId);
    }
  }

  lemma PrefixedLockNamesLane(kind: JobKind, scopeId: string)
    requires LaneForJobKind(kind) == Sync || LaneForJobKind(kind) == RootLlm || kind.ClassifyReviewBacklog?
               || kind.RebuildOverseer?
    ensures LaneOfLock(LockName(kind, scopeId)) == LaneForJobKind(kind)
  {
    var lock := LockName(kind, scopeId);
    assert lock[0] == 's' || lock[0] == 'r' || lock[0] == 'o';
    assert lock[0] == 'r' ==> lock[1] == if kind.ClassifyReviewBacklog? then 'e' else 'o';
  }

  lemma FinanceLockNamesLane(scopeId: string)
    ensures LaneOfLock("finance:" + scopeId) == FinanceLlm <==> scopeId !in RESERVED
  {
    var lock := "finance:" + scopeId;
    assert lock[0] == 'f' && lock[8..] == scopeId;
    assert "finance:materialize" == "finance:" + RESERVED[0];
    assert "finance:export-report" == "finance:" + RESERVED[1];
    assert "finance:mapping-candidates" == "finance:" + RESERVED[2];
    assert "categories:materialize"[0] == 'c';
    if scopeId in RESERVED {
      assert scopeId == RESERVED[0] || scopeId == RESERVED[1] || scopeId == RESERVED[2];
    } else {
      forall i | 0 <= i < 3 ensures lock != "finance:" + RESERVED[i] {
        assert ("finance:" + RESERVED[i])[8..] == RESERVED[i];
      }
      assert lock != "finance:" + RESERVED[0] && lock != "finance:" + RESERVED[1] && lock != "finance:" + RESERVED[2];
    }
  }

  /** Jobs of different lanes never contend for a lock, unless an account id is a reserved word. */
  lemma LocksOfLanesDisjoint(a: Job, b: Job)
    requires LaneForJobKind(a.kind) != LaneForJobKind(b.kind)
    requires !BorrowsLock(a.kind, a.scopeId) && !BorrowsLock(b.kind, b.scopeId)
    ensures forall lock :: lock in ResourceLocks(a) ==> lock !in ResourceLocks(b)
  {
    LockNamesLane(a.kind, a.scopeId);
    LockNamesLane(b.kind, b.scopeId);
  }

  datatype Work =
    | AccountSync | RootClassification | FinanceClassification | UploadProcessing | ReviewClassification
    | LedgerUpkeep | Reporting | MappingCandidates | Overseeing | CategoryUpkeep

  /** The work that kinds of one group do; two jobs that do the same work exclude each other. */
  function WorkOf(kind: JobKind): Work {
    match kind
    case SyncAccountFull | SyncAccountDelta | SyncAccountBackfill | SyncAccountReconcile => AccountSync
    case ClassifyAccountBacklog | ClassifyRootMessages => RootClassification
    case ClassifyFinanceBacklog | ClassifyFinanceMessages => FinanceClassification
    case ProcessFinanceUpload => UploadProcessing
    case ClassifyReviewBacklog => ReviewClassification
    case RebuildFinanceKnowledge | RebuildFinanceRollups | ImportOperatorRegistry | ReconcileRegistrySuggestions
       | ImportFinanceArtifact => LedgerUpkeep
    case ExportFinanceBeancount | GenerateTaxPersonalPackage | GenerateTaxBusinessQuarterPackage => Reporting
    case GenerateFinanceMappingCandidates => MappingCandidates
    case RebuildOverseer => Overseeing
    case RebuildCategoryAssignments => CategoryUpkeep
  }

  /** Work that is done once for all accounts. */
  predicate IsShared(work: Work) {
    work.LedgerUpkeep? || work.Reporting? || work.MappingCandidates? || work.CategoryUpkeep?
  }

  /** Where a lock name shows its work, and where its scope starts. */
  lemma LockShape(kind: JobKind, s: string)
    ensures var x := LockName(kind, s);
            && |x| > 4
            && (WorkOf(kind).AccountSync? ==> x[0] == 's' && x[5..] == s)
            && (WorkOf(kind).RootClassification? ==> x[0] == 'r' && x[1] == 'o' && x[5..] == s)
            && (WorkOf(kind).ReviewClassification? ==> x[0] == 'r' && x[1] == 'e' && x[7..] == s)
            && (WorkOf(kind).FinanceClassification? ==> x[0] == 'f' && x[7] == ':' && x[8..] == s)
            && (WorkOf(kind).UploadProcessing? ==> x[0] == 'f' && x[7] == '_' && x[15..] == s)
            && (WorkOf(kind).Overseeing? ==> x[0] == 'o' && x[9..] == s)
            && (WorkOf(kind).CategoryUpkeep? ==> x[0] == 'c')
  {
  }

  /** Two jobs exclude each other exactly when they do the same work, and for the same scope unless it is shared. */
  lemma LocksExclude(a: JobKind, s: string, b: JobKind, t: string)
    requires !BorrowsLock(a, s) && !BorrowsLock(b, t)
    ensures LockName(a, s) == LockName(b, t) <==> WorkOf(a) == WorkOf(b) && (IsShared(WorkOf(a)) || s == t)
  {
    if LaneForJobKind(a) != LaneForJobKind(b) {
      LockNamesLane(a, s);
      LockNamesLane(b, t);
    } else {
      LocksExcludeInLane(a, s, b, t);
    }
  }

  lemma LocksExcludeInLane(a: JobKind, s: string, b: JobKind, t: string)
    requires LaneForJobKind(a) == LaneForJobKind(b)
    ensures LockName(a, s) == LockName(b, t) <==> WorkOf(a) == WorkOf(b) && (IsShared(WorkOf(a)) || s == t)
  {
    LockShape(a, s);
    LockShape(b, t);
    if WorkOf(a) == WorkOf(b) && !IsShared(WorkOf(a)) {
      SameWorkLocks(a, s, b, t);
    }
  }

  lemma SameWorkLocks(a: JobKind, s: string, b: JobKind, t: string)
    requires WorkOf(a) == WorkOf(b) && !IsShared(WorkOf(a))
    ensures LockName(a, s) == LockName(b, t) <==> s == t
  {
    LockShape(a, s);
    LockShape(b, t);
    assert s == t ==> LockName(a, s) == LockName(b, t);
  }

  /** A job outside the finance LLM lane that takes this lock. */
  ghost predicate TakesElsewhere(lock: string, kind: JobKind, scopeId: string) {
    LaneForJobKind(kind) != FinanceLlm && LockName(kind, scopeId) == lock
  }

  /** A finance classification contends with jobs of another lane exactly when its account id is a reserved word. */
  lemma BorrowedLockContends(kind: JobKind, scopeId: string)
    requires kind.ClassifyFinanceBacklog? || kind.ClassifyFinanceMessages?
    ensures BorrowsLock(kind, scopeId) <==> exists k, s :: TakesElsewhere(LockName(kind, scopeId), k, s)
  {
    if BorrowsLock(kind, scopeId) {
      ReservedWordIsTaken(kind, scopeId);
    } else if k, s :| TakesElsewhere(LockName(kind, scopeId), k, s) {
      OrdinaryLockIsOwn(kind, scopeId, k, s);
    }
  }

  lemma OrdinaryLockIsOwn(kind: JobKind, scopeId: string, k: JobKind, s: string)
    requires LaneForJobKind(kind) == FinanceLlm && !BorrowsLock(kind, scopeId)
    ensures !TakesElsewhere(LockName(kind, scopeId), k, s)
  {
    LockNamesLane(kind, scopeId);
    LockNamesLane(k, s);
  }

  /**
   * An account called "materialize" keeps its mail classification from running beside the ledger rebuild, and so on.
   */
  lemma ReservedWordIsTaken(kind: JobKind, scopeId: string)
    requires BorrowsLock(kind, scopeId)
    ensures exists k, s :: TakesElsewhere(LockName(kind, scopeId), k, s)
  {
    assert LockName(kind, scopeId) == "finance:" + scopeId;
    if scopeId == RESERVED[0] {
      MaterializeIsTaken();
    } else if scopeId == RESERVED[1] {
      ExportReportIsTaken();
    } else {
      assert scopeId == RESERVED[2];
      MappingCandidatesIsTaken();
    }
  }

  lemma MaterializeIsTaken()
    ensures TakesElsewhere("finance:" + RESERVED[0], RebuildFinanceKnowledge, "finance")
  {
  }

  lemma ExportReportIsTaken()
    ensures TakesElsewhere("finance:" + RESERVED[1], ExportFinanceBeancount, "run")
  {
  }

  lemma MappingCandidatesIsTaken()
    ensures TakesElsewhere("finance:" + RESERVED[2], GenerateFinanceMappingCandidates, "finance_mapping_candidates")
  {
  }
}
