/**
 * The job table and the mirror of one account together. A sync job is worked on by a process that was started by a
 * claim of its row; nothing but the table keeps two of them apart. As long as the lease of a live run is never allowed
 * to expire, one process at most is at work, and what the mirror machine promises holds of the whole system.
 */
module MirrorSystem {
  import opened Common
  import opened RemoteMailbox
  import opened MailStore
  import opened MirrorMachine
  import opened MirrorProofs
  import opened JobRules
  import opened JobSafety
  import opened JobTable
  import opened BackfillChain

  /** The row a process was started for, and what its run holds in its local variables. */
  datatype Process = Process(rowId: nat, job: MirrorMachine.Job)

  datatype System = System(
    rows: seq<JobRules.Job>,
    remote: Mailbox,
    cursors: Option<SyncState>,
    sources: map<string, Source>,
    live: map<nat, Process>)

  function View(s: System, job: MirrorMachine.Job): World { World(s.remote, s.cursors, s.sources, job) }

  function WithWorld(s: System, w: World): System {
    s.(remote := w.remote, cursors := w.row, sources := w.sources)
  }

  // ---------- Steps ----------

  /** A request, a claim for others, a heartbeat or an outcome of others; the account's running rows keep running. */
  ghost predicate OthersAct(cfg: Config, account: string, s: System, s': System) {
    s' == s.(rows := s'.rows) && Step(cfg, s.rows, s'.rows) && RowsKept(s.rows, s'.rows, true, account)
  }

  /** A sync row of the account is claimed, and a process started for it. */
  ghost predicate Starts(cfg: Config, account: string, s: System, s': System, i: nat, now: int, p: nat) {
    && Claimable(cfg, s.rows, i) && IsOurs(s.rows[i], account) && p !in s.live
    && exists owner :: s' == s.(rows := s.rows[i := Claimed(s.rows[i], now, cfg.leaseMs, owner)],
                                live := s.live[p := Process(s.rows[i].id, Idle)])
  }

  /** The worker puts expired rows back into the queue. No process notices. */
  ghost predicate Expires(s: System, s': System, now: int) {
    s' == s.(rows := s'.rows) && RequeuedUpTo(s.rows, s'.rows, |s.rows|, now)
  }

  /** No row whose process is alive is among them. */
  ghost predicate LeasesKept(s: System, now: int) {
    forall p, i :: p in s.live && 0 <= i < |s.rows| && s.rows[i].id == s.live[p].rowId ==> !IsExpired(s.rows[i], now)
  }

  /** A step of the mirror machine, made by one process. */
  ghost predicate Works(win: Window, s: System, s': System, p: nat, w': World) {
    && p in s.live && Next(View(s, s.live[p].job), w', win)
    && s' == WithWorld(s, w').(live := s.live[p := Process(s.live[p].rowId, w'.job)])
  }

  /** A step of the outside world while nobody needs to be at work. */
  ghost predicate Happens(s: System, s': System, w': World) {
    && (Outside(View(s, Idle), w') || SeedRow(View(s, Idle), w') || Reextract(View(s, Idle), w'))
    && s' == WithWorld(s, w')
  }

  /** A process dies, or ends and closes its row. */
  ghost predicate Stops(s: System, s': System, p: nat) {
    && p in s.live && s' == s.(rows := s'.rows, live := s.live - {p})
    && (s'.rows == s.rows || exists i, after :: Closes(s, s', p, i, after))
  }

  ghost predicate Closes(s: System, s': System, p: nat, i: nat, after: JobRules.Job)
    requires p in s.live
  {
    && i < |s.rows| && s.rows[i].id == s.live[p].rowId && Quiet(s.rows[i], after) && !IsOpen(after)
    && s'.rows == s.rows[i := after]
  }

  /** One step of the system; a careful one lets no lease of a live run expire. */
  ghost predicate SystemStep(cfg: Config, win: Window, account: string, careful: bool, s: System, s': System) {
    || OthersAct(cfg, account, s, s')
    || (exists i, now, p :: Starts(cfg, account, s, s', i, now, p))
    || (exists now :: Expires(s, s', now) && (careful ==> LeasesKept(s, now)))
    || (exists p, w' :: Works(win, s, s', p, w'))
    || (exists w' :: Happens(s, s', w'))
    || (exists p :: Stops(s, s', p))
  }

  ghost predicate IsStart(s: System) {
    s.rows == [] && s.live == map[] && Init(View(s, Idle))
  }

  ghost predicate IsSystemRun(cfg: Config, win: Window, account: string, careful: bool, run: seq<System>) {
    && |run| > 0 && IsStart(run[0])
    && forall i :: 0 <= i < |run| - 1 ==> SystemStep(cfg, win, account, careful, run[i], run[i + 1])
  }

  // ---------- One run in flight ----------

  /** Row `id` is a running sync row of the account. */
  ghost predicate RunsFor(rows: seq<JobRules.Job>, id: nat, account: string) {
    exists i :: 0 <= i < |rows| && RowHasStatus(rows[i], id, account, Running)
  }

  ghost predicate AtMostOne(live: map<nat, Process>) {
    forall p, q :: p in live && q in live ==> p == q
  }

  ghost predicate SystemInv(cfg: Config, account: string, s: System) {
    && Safe(cfg, s.rows) && AtMostOne(s.live)
    && forall p :: p in s.live ==> RunsFor(s.rows, s.live[p].rowId, account)
  }

  lemma OthersKeepInv(cfg: Config, account: string, s: System, s': System)
    requires SystemInv(cfg, account, s) && OthersAct(cfg, account, s, s')
    ensures SystemInv(cfg, account, s')
  {
    StepKeepsSafe(cfg, s.rows, s'.rows);
    forall p | p in s.live ensures RunsFor(s'.rows, s.live[p].rowId, account) {
    }
  }

  /** A claimable sync row means that nobody is at work: the running row would hold the lock. */
  lemma ClaimFindsNobody(cfg: Config, account: string, s: System, i: nat)
    requires SystemInv(cfg, account, s) && Claimable(cfg, s.rows, i) && IsOurs(s.rows[i], account)
    ensures s.live == map[]
  {
    if p :| p in s.live {
      RunningSyncBlocks(cfg, s.rows, s.live[p].rowId, s.rows[i], account);
    }
  }

  lemma RunningSyncBlocks(cfg: Config, rows: seq<JobRules.Job>, id: nat, candidate: JobRules.Job, account: string)
    requires RunsFor(rows, id, account) && IsOurs(candidate, account)
    ensures !IsCompatibleWithRunning(cfg, candidate, RunningRows(rows))
  {
    var k :| 0 <= k < |rows| && RowHasStatus(rows[k], id, account, Running);
    assert rows[k] in RunningRows(rows);
    assert "sync:" + account in ResourceLocks(rows[k]) && "sync:" + account in ResourceLocks(candidate);
  }

  lemma StartKeepsInv(cfg: Config, account: string, s: System, s': System, i: nat, now: int, p: nat)
    requires SystemInv(cfg, account, s) && Starts(cfg, account, s, s', i, now, p)
    ensures SystemInv(cfg, account, s') && s.live == map[]
  {
    ClaimFindsNobody(cfg, account, s, i);
    var owner :| s' == s.(rows := s.rows[i := Claimed(s.rows[i], now, cfg.leaseMs, owner)],
                          live := s.live[p := Process(s.rows[i].id, Idle)]);
    ClaimKeepsSafe(cfg, s.rows, i, now, owner);
    assert RowHasStatus(s'.rows[i], s.rows[i].id, account, Running);
  }

  /** The table with its first `n` rows visited by the worker's requeue. */
  function RequeuedPrefix(rows: seq<JobRules.Job>, n: nat, now: int): seq<JobRules.Job> {
    seq(|rows|, i requires 0 <= i < |rows| => if i < n then RequeuedIfExpired(rows[i], now) else rows[i])
  }

  lemma {:induction false} RequeueKeepsSafe(cfg: Config, rows: seq<JobRules.Job>, n: nat, now: int)
    requires Safe(cfg, rows) && n <= |rows|
    ensures Safe(cfg, RequeuedPrefix(rows, n, now))
  {
    if n == 0 {
      assert RequeuedPrefix(rows, 0, now) == rows;
    } else {
      RequeueKeepsSafe(cfg, rows, n - 1, now);
      var before, after := RequeuedPrefix(rows, n - 1, now), RequeuedIfExpired(rows[n - 1], now);
      assert before[n - 1] == rows[n - 1] && RequeuedPrefix(rows, n, now) == before[n - 1 := after];
      QuietChangeKeepsSafe(cfg, before, n - 1, after);
    }
  }

  lemma ExpiryKeepsInv(cfg: Config, account: string, s: System, s': System, now: int)
    requires SystemInv(cfg, account, s) && Expires(s, s', now) && LeasesKept(s, now)
    ensures SystemInv(cfg, account, s')
  {
    RequeueKeepsSafe(cfg, s.rows, |s.rows|, now);
    assert s'.rows == RequeuedPrefix(s.rows, |s.rows|, now);
    forall p | p in s.live ensures RunsFor(s'.rows, s.live[p].rowId, account) {
      var i :| 0 <= i < |s.rows| && RowHasStatus(s.rows[i], s.live[p].rowId, account, Running);
      assert s'.rows[i] == s.rows[i];
    }
  }

  lemma StopKeepsInv(cfg: Config, account: string, s: System, s': System, p: nat)
    requires SystemInv(cfg, account, s) && Stops(s, s', p)
    ensures SystemInv(cfg, account, s') && s'.live == map[]
  {
    if s'.rows != s.rows {
      var i, after :| Closes(s, s', p, i, after);
      QuietChangeKeepsSafe(cfg, s.rows, i, after);
    }
  }

  lemma StepKeepsSystemInv(cfg: Config, win: Window, account: string, s: System, s': System)
    requires SystemInv(cfg, account, s) && SystemStep(cfg, win, account, true, s, s')
    ensures SystemInv(cfg, account, s')
  {
    if OthersAct(cfg, account, s, s') {
      OthersKeepInv(cfg, account, s, s');
    } else if i, now, p :| Starts(cfg, account, s, s', i, now, p) {
      StartKeepsInv(cfg, account, s, s', i, now, p);
    } else if now :| Expires(s, s', now) && LeasesKept(s, now) {
      ExpiryKeepsInv(cfg, account, s, s', now);
    } else if p, w' :| Works(win, s, s', p, w') {
    } else if w' :| Happens(s, s', w') {
    } else {
      var p :| Stops(s, s', p);
      StopKeepsInv(cfg, account, s, s', p);
    }
  }

  /** In every state of every careful run the table is safe and at most one process works for the account. */
  lemma {:induction false} OneRunInFlight(cfg: Config, win: Window, account: string, run: seq<System>, n: nat)
    requires IsSystemRun(cfg, win, account, true, run) && n < |run|
    ensures SystemInv(cfg, account, run[n])
  {
    if n > 0 {
      OneRunInFlight(cfg, win, account, run, n - 1);
      StepKeepsSystemInv(cfg, win, account, run[n - 1], run[n]);
    }
  }

  // ---------- The system refines the mirror machine ----------

  /** What the run in flight holds. */
  ghost function InFlight(live: map<nat, Process>): MirrorMachine.Job {
    if live == map[] then Idle
    else
      var p :| p in live;
      live[p].job
  }

  ghost function WorldOf(s: System): World { View(s, InFlight(s.live)) }

  lemma InFlightIs(live: map<nat, Process>, p: nat)
    requires AtMostOne(live) && p in live
    ensures InFlight(live) == live[p].job
  {
  }

  /** Nothing happening is a step of the machine: the expunge of a message that is not there. */
  lemma Stutter(w: World, win: Window)
    requires Inv(w, win)
    ensures Next(w, w, win)
  {
    assert Apply(w.remote, Expunge(0)) == w.remote;
    assert Enabled(w.remote, Expunge(0)) && w == w.(remote := Apply(w.remote, Expunge(0)));
  }

  lemma EventIsNext(s: System, s': System, w': World, win: Window)
    requires Happens(s, s', w')
    ensures Next(WorldOf(s), WorldOf(s'), win)
  {
    var (w, u, v) := (View(s, Idle), WorldOf(s), WorldOf(s'));
    if Outside(w, w') {
      var e: Event :| Enabled(w.remote, e) && w' == w.(remote := Apply(w.remote, e));
      assert v == u.(remote := Apply(u.remote, e));
      assert Outside(u, v);
    } else if SeedRow(w, w') {
      assert SeedRow(u, v);
    } else {
      var r, sha :| r in w.sources && w' == w.(sources := w.sources[r := w.sources[r].(sha := sha)]);
      assert v == u.(sources := u.sources[r := u.sources[r].(sha := sha)]);
      assert Reextract(u, v);
    }
  }

  /** Every careful step of the system is one step of the mirror machine. */
  lemma SystemStepIsNext(cfg: Config, win: Window, account: string, s: System, s': System)
    requires SystemInv(cfg, account, s) && Inv(WorldOf(s), win) && SystemStep(cfg, win, account, true, s, s')
    ensures Next(WorldOf(s), WorldOf(s'), win)
  {
    StepKeepsSystemInv(cfg, win, account, s, s');
    if OthersAct(cfg, account, s, s') || exists now :: Expires(s, s', now) {
      Stutter(WorldOf(s), win);
    } else if i, now, p :| Starts(cfg, account, s, s', i, now, p) {
      StartKeepsInv(cfg, account, s, s', i, now, p);
      InFlightIs(s'.live, p);
      Stutter(WorldOf(s), win);
    } else if p, w' :| Works(win, s, s', p, w') {
      InFlightIs(s.live, p);
      InFlightIs(s'.live, p);
    } else if w' :| Happens(s, s', w') {
      EventIsNext(s, s', w', win);
    } else {
      var p :| Stops(s, s', p);
      StopKeepsInv(cfg, account, s, s', p);
      assert Crash(WorldOf(s), WorldOf(s'));
    }
  }

  ghost function Worlds(run: seq<System>): seq<World> {
    seq(|run|, i requires 0 <= i < |run| => WorldOf(run[i]))
  }

  /** So what the mirror goes through in a careful run of the system is a run of the mirror machine. */
  lemma {:induction false} SystemRefinesMachine(cfg: Config, win: Window, account: string, run: seq<System>)
    requires IsSystemRun(cfg, win, account, true, run)
    ensures IsRun(Worlds(run), win)
  {
    if |run| > 1 {
      SystemRefinesMachine(cfg, win, account, run[..|run| - 1]);
      LastStepRefines(cfg, win, account, run);
    }
  }

  lemma LastStepRefines(cfg: Config, win: Window, account: string, run: seq<System>)
    requires IsSystemRun(cfg, win, account, true, run) && |run| > 1
    requires IsRun(Worlds(run[..|run| - 1]), win)
    ensures IsRun(Worlds(run), win)
  {
    var n := |run| - 1;
    RunKeepsInv(Worlds(run[..n]), win, n - 1);
    OneRunInFlight(cfg, win, account, run, n - 1);
    SystemStepIsNext(cfg, win, account, run[n - 1], run[n]);
    LongerRun(Worlds(run[..n]), WorldOf(run[n]), win);
    assert Worlds(run) == Worlds(run[..n]) + [WorldOf(run[n])];
  }

  lemma LongerRun(run: seq<World>, w: World, win: Window)
    requires IsRun(run, win) && Next(run[|run| - 1], w, win)
    ensures IsRun(run + [w], win)
  {
    var longer := run + [w];
    forall i | 0 <= i < |longer| - 1 ensures Next(longer[i], longer[i + 1], win) {
      if i < |run| - 1 {
        assert longer[i] == run[i] && longer[i + 1] == run[i + 1];
      }
    }
  }

  /** Coverage holds in the whole system, whatever is queued, claimed and requeued, as long as live leases are kept. */
  lemma SystemCovered(cfg: Config, win: Window, account: string, run: seq<System>, n: nat)
    requires IsSystemRun(cfg, win, account, true, run) && n < |run|
    ensures Covered(WorldOf(run[n]))
    ensures run[n].cursors.Some? ==> CursorShape(run[n].cursors.value)
  {
    SystemRefinesMachine(cfg, win, account, run);
    RunKeepsInv(Worlds(run), win, n);
  }
}
