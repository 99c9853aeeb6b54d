/**
 * What an expired lease of a live run does: a run of the system in which a reconcile run, its lease lost, tombstones a
 * message that a second run has just mirrored. The claimed interval is then no longer covered.
 */
module LeaseRace {
  import opened Common
  import opened RemoteMailbox
  import opened MailStore
  import opened MirrorMachine
  import opened JobRules
  import opened JobSafety
  import opened JobTable
  import opened BackfillChain
  import opened MirrorSystem

  const CFG := Config(1, map[], 600000)
  const WIN: Window := 250
  const ACCOUNT := "a"

  /** A message that is expunged under UID 1 and comes back under UID 2. */
  const FIRST := RemoteMessage(1, "m", "t", "s", None, true)
  const SECOND := FIRST.(uid := 2)

  ghost predicate Reaches(run: seq<System>, s: System) {
    IsSystemRun(CFG, WIN, ACCOUNT, false, run) && run[|run| - 1] == s
  }

  lemma OneMore(run: seq<System>, s: System, s': System) returns (longer: seq<System>)
    requires Reaches(run, s) && SystemStep(CFG, WIN, ACCOUNT, false, s, s')
    ensures Reaches(longer, s')
  {
    longer := run + [s'];
    forall i | 0 <= i < |longer| - 1 ensures SystemStep(CFG, WIN, ACCOUNT, false, longer[i], longer[i + 1]) {
      if i < |run| - 1 {
        assert longer[i] == run[i] && longer[i + 1] == run[i + 1];
      }
    }
  }

  /** One step of process `p`. */
  lemma Work(run: seq<System>, s: System, p: nat, w: World) returns (longer: seq<System>)
    requires Reaches(run, s) && p in s.live && Next(View(s, s.live[p].job), w, WIN)
    ensures Reaches(longer, WithWorld(s, w).(live := s.live[p := Process(s.live[p].rowId, w.job)]))
  {
    var s' := WithWorld(s, w).(live := s.live[p := Process(s.live[p].rowId, w.job)]);
    assert Works(WIN, s, s', p, w);
    longer := OneMore(run, s, s');
  }

  /** One event of the outside world. */
  lemma Event(run: seq<System>, s: System, e: RemoteMailbox.Event) returns (longer: seq<System>)
    requires Reaches(run, s) && Enabled(s.remote, e)
    ensures Reaches(longer, s.(remote := Apply(s.remote, e)))
  {
    var w' := View(s, Idle).(remote := Apply(s.remote, e));
    assert Outside(View(s, Idle), w') && Happens(s, WithWorld(s, w'), w');
    longer := OneMore(run, s, WithWorld(s, w'));
  }

  function Asked(id: nat, kind: JobKind): JobRules.Job { NewJob(id, AccountRequest(kind, ACCOUNT), 0) }

  function Run(j: JobRules.Job, now: int): JobRules.Job { Claimed(j, now, CFG.leaseMs, None) }

  /** With no row running and none of its kind open, a sync job is queued, claimed and started. */
  lemma QueueAndStart(run: seq<System>, s: System, id: nat, kind: JobKind, now: int, p: nat)
    returns (longer: seq<System>)
    requires Reaches(run, s) && IsSync(kind) && p !in s.live
    requires forall j :: j in s.rows ==> !IsRunning(j) && j.id != id && !(IsOpen(j) && j.kind == kind)
    ensures Reaches(longer, s.(rows := s.rows + [Run(Asked(id, kind), now)], live := s.live[p := Process(id, Idle)]))
  {
    var job, n := Asked(id, kind), |s.rows|;
    var queued := s.(rows := s.rows + [job]);
    var started := s.(rows := s.rows + [Run(job, now)], live := s.live[p := Process(id, Idle)]);
    assert Inserts(s.rows, job) && OthersAct(CFG, ACCOUNT, s, queued);
    longer := OneMore(run, s, queued);
    FilterNone(queued.rows, IsRunning);
    assert queued.rows[n := Run(queued.rows[n], now)] == started.rows;
    assert Starts(CFG, ACCOUNT, queued, started, n, now, p);
    longer := OneMore(longer, queued, started);
  }

  /** The source row a message leaves. */
  function Mirrored(m: RemoteMessage): map<string, Source> { map["m" := IngestedSource(0, m, 7)] }

  /** The cursors after delta runs have gone up to UID `u`. */
  function UpTo(u: nat): Option<SyncState> { Some(SyncState(Some(7), Some(u), Some(1), None, None, false)) }

  /** A delta run of process `p` finds one new message, `m`, and mirrors it. */
  lemma DeltaMirrors(run: seq<System>, s: System, p: nat, m: RemoteMessage) returns (longer: seq<System>)
    requires Reaches(run, s) && p in s.live && s.live[p].job.Idle?
    requires || (m == FIRST && s.cursors == Some(CLEARED) && s.sources == map[])
             || (m == SECOND && s.cursors == UpTo(1) && s.sources == Mirrored(FIRST))
    requires s.remote == Mailbox(7, m.uid + 1, map[m.uid := m])
    ensures Reaches(longer, s.(cursors := UpTo(m.uid), sources := Mirrored(m),
                               live := s.live[p := Process(s.live[p].rowId, Idle)]))
  {
    var (plan, w) := (Plan(Delta, 7, m.uid, m.uid), View(s, Idle));
    assert StartDelta(w, w.(job := Fetching(plan)), WIN);
    longer := Work(run, s, p, w.(job := Fetching(plan)));
    longer := FetchAndIngest(longer, s.(live := s.live[p := Process(s.live[p].rowId, Fetching(plan))]), p, m, plan);
    var ingested := Ingesting(plan, [m], 1, m.uid + 1);
    var before := s.(sources := Mirrored(m), live := s.live[p := Process(s.live[p].rowId, ingested)]);
    var after := View(before, Idle).(row := UpTo(m.uid));
    assert WriteCursors(View(before, ingested), after);
    longer := Work(longer, before, p, after);
    assert before.live[p := Process(s.live[p].rowId, Idle)] == s.live[p := Process(s.live[p].rowId, Idle)];
  }

  lemma FetchAndIngest(run: seq<System>, s: System, p: nat, m: RemoteMessage, plan: Plan) returns (longer: seq<System>)
    requires Reaches(run, s) && p in s.live && s.live[p].job == Fetching(plan) && plan == Plan(Delta, 7, m.uid, m.uid)
    requires (m == FIRST && s.sources == map[]) || (m == SECOND && s.sources == Mirrored(FIRST))
    requires s.remote == Mailbox(7, m.uid + 1, map[m.uid := m])
    ensures Reaches(longer, s.(sources := Mirrored(m),
                               live := s.live[p := Process(s.live[p].rowId, Ingesting(plan, [m], 1, m.uid + 1))]))
  {
    var fetched := View(s, Ingesting(plan, [m], 0, m.uid + 1));
    assert Fetch(View(s, Fetching(plan)), fetched);
    longer := Work(run, s, p, fetched);
    var before := s.(live := s.live[p := Process(s.live[p].rowId, fetched.job)]);
    var ingested := fetched.(sources := Mirrored(m), job := Ingesting(plan, [m], 1, m.uid + 1));
    assert s.sources["m" := IngestedSource(0, m, 7)] == Mirrored(m);
    assert IngestOne(fetched, ingested);
    longer := Work(longer, before, p, ingested);
    var done := Process(s.live[p].rowId, ingested.job);
    assert before.live[p := done] == s.live[p := done];
  }

  // ---------- The run ----------

  const START := System([], Mailbox(7, 2, map[1 := FIRST]), None, map[], map[])
  const DONE := Updated(Run(Asked(0, SyncAccountDelta), 0), COMPLETION, 0)
  const MIRRORED := START.(rows := [DONE], cursors := UpTo(1), sources := Mirrored(FIRST))

  /** A delta job mirrors the message and completes. */
  lemma FirstDelta() returns (run: seq<System>)
    ensures Reaches(run, MIRRORED)
  {
    var seeded := START.(cursors := Some(CLEARED));
    assert Happens(START, seeded, View(seeded, Idle));
    run := OneMore([START], START, seeded);
    run := QueueAndStart(run, seeded, 0, SyncAccountDelta, 0, 0);
    var started := seeded.(rows := [Run(Asked(0, SyncAccountDelta), 0)], live := map[0 := Process(0, Idle)]);
    run := DeltaMirrors(run, started, 0, FIRST);
    run := FirstDeltaCompletes(run, MIRRORED.(rows := started.rows, live := started.live));
  }

  lemma FirstDeltaCompletes(before: seq<System>, s: System) returns (run: seq<System>)
    requires Reaches(before, s)
    requires s == MIRRORED.(rows := [Run(Asked(0, SyncAccountDelta), 0)], live := map[0 := Process(0, Idle)])
    ensures Reaches(run, MIRRORED)
  {
    assert Closes(s, MIRRORED, 0, 0, DONE) && Stops(s, MIRRORED, 0);
    run := OneMore(before, s, MIRRORED);
  }

  /** A time at which the lease of the reconcile job, claimed at time 0, is over. */
  const LATE := 600001

  const COMPARING := Comparing(7, 1, 1, {}, {"m"})
  const LOST := MIRRORED.(rows := [DONE, Requeued(Run(Asked(1, SyncAccountReconcile), 0))],
                          remote := Mailbox(7, 2, map[]),
                          live := map[1 := Process(1, COMPARING)])

  /** A reconcile run reads the remote ids after the message has gone, and its lease expires. */
  lemma LeaseIsLost(before: seq<System>) returns (run: seq<System>)
    requires Reaches(before, MIRRORED)
    ensures Reaches(run, LOST)
  {
    run := QueueAndStart(before, MIRRORED, 1, SyncAccountReconcile, 0, 1);
    var reconcile := Run(Asked(1, SyncAccountReconcile), 0);
    var started := MIRRORED.(rows := [DONE, reconcile], live := map[1 := Process(1, Idle)]);
    run := MessageGoes(run, started);
    var gone := started.(remote := LOST.remote, live := LOST.live);
    assert Expires(gone, LOST, LATE);
    run := OneMore(run, gone, LOST);
  }

  lemma MessageGoes(before: seq<System>, s: System) returns (run: seq<System>)
    requires Reaches(before, s) && s.live == map[1 := Process(1, Idle)]
    requires s.remote == MIRRORED.remote && s.cursors == UpTo(1) && s.sources == Mirrored(FIRST)
    ensures Reaches(run, s.(remote := LOST.remote, live := LOST.live))
  {
    var head := View(s, ReconcileHead(7, 1, 1));
    assert StartReconcile(View(s, Idle), head);
    run := Work(before, s, 1, head);
    var reading := s.(live := map[1 := Process(1, head.job)]);
    run := Event(run, reading, Expunge(1));
    var gone := reading.(remote := LOST.remote);
    assert gone == reading.(remote := Apply(reading.remote, Expunge(1)));
    run := IdsAreFetched(run, gone);
  }

  lemma IdsAreFetched(before: seq<System>, s: System) returns (run: seq<System>)
    requires Reaches(before, s) && s.live == map[1 := Process(1, ReconcileHead(7, 1, 1))]
    requires s.remote == Mailbox(7, 2, map[]) && s.sources == Mirrored(FIRST)
    ensures Reaches(run, s.(live := LOST.live))
  {
    assert RemoteIds(s.remote, 1, 1) == {};
    assert LocalSources(s.sources, 7, 1, 1) == {"m"};
    assert FetchIds(View(s, ReconcileHead(7, 1, 1)), View(s, COMPARING));
    run := Work(before, s, 1, View(s, COMPARING));
  }

  const RACING := LOST.(rows := LOST.rows + [Run(Asked(2, SyncAccountDelta), LATE)],
                        remote := Mailbox(7, 3, map[2 := SECOND]),
                        cursors := UpTo(2), sources := Mirrored(SECOND),
                        live := map[1 := Process(1, COMPARING), 2 := Process(2, Idle)])

  /** A second run starts, the message comes back under a new UID, and the run mirrors it. */
  lemma SecondDelta(before: seq<System>) returns (run: seq<System>)
    requires Reaches(before, LOST)
    ensures Reaches(run, RACING)
  {
    run := QueueAndStart(before, LOST, 2, SyncAccountDelta, LATE, 2);
    run := MessageReturns(run, LOST.(rows := RACING.rows, live := RACING.live));
    var returned := LOST.(rows := RACING.rows, live := RACING.live, remote := RACING.remote);
    run := DeltaMirrors(run, returned, 2, SECOND);
    assert returned.live[2 := Process(2, Idle)] == RACING.live;
  }

  lemma MessageReturns(before: seq<System>, s: System) returns (run: seq<System>)
    requires Reaches(before, s) && s.remote == LOST.remote
    ensures Reaches(run, s.(remote := RACING.remote))
  {
    run := Event(before, s, Append(SECOND));
    assert RACING.remote == Apply(s.remote, Append(SECOND));
  }

  /** The message is present with a source, in the claimed interval of the current epoch, and not mirrored. */
  ghost predicate LosesMessage(s: System, u: nat) {
    var w := View(s, Idle);
    && u in w.remote.msgs && w.remote.msgs[u].hasBody && Claims(w, u)
    && !Carries(w.sources, w.remote.msgs[u].remoteId, u, w.remote.validity)
  }

  /** Without care for live leases two runs can be in flight, and coverage can be lost. */
  lemma ExpiredLeaseLosesCoverage() returns (run: seq<System>)
    ensures IsSystemRun(CFG, WIN, ACCOUNT, false, run)
    ensures !AtMostOne(run[|run| - 1].live) && LosesMessage(run[|run| - 1], 2)
  {
    run := FirstDelta();
    run := LeaseIsLost(run);
    run := SecondDelta(run);
    run := FirstRunTombstones(run);
  }

  /** The reconcile run, unaware of all this, tombstones it. */
  lemma FirstRunTombstones(before: seq<System>) returns (run: seq<System>)
    requires Reaches(before, RACING)
    ensures IsSystemRun(CFG, WIN, ACCOUNT, false, run)
    ensures !AtMostOne(run[|run| - 1].live) && LosesMessage(run[|run| - 1], 2)
  {
    var w := View(RACING, COMPARING);
    var w' := w.(sources := Tombstone(w.sources, "m"), job := Comparing(7, 1, 1, {}, {"m"} - {"m"}));
    assert ComparedWith(w, w', "m");
    run := Work(before, RACING, 1, w');
    assert 1 in run[|run| - 1].live && 2 in run[|run| - 1].live;
  }
}
