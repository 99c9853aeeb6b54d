/**
 * The mirror protocol of lib/sync.ts as a state machine over single atomic steps: the outside world, a crash, and
 * each database write or mailbox read of the four sync runs. One run is in flight per account at a time, which is
 * what the `sync:<account>` lock of the job table provides.
 */
module MirrorMachine {
  import opened Common
  import opened RemoteMailbox
  import opened MailStore

  type Window = w: nat | w >= 1 witness 1

  /** The cursor columns of `account_sync_state`. */
  datatype SyncState = SyncState(
    validity: Option<nat>,
    latest: Option<nat>,
    earliest: Option<nat>,
    snapshot: Option<nat>,
    next: Option<nat>,
    bootstrapped: bool)

  const CLEARED := SyncState(None, None, None, None, None, false)

  datatype Goal = Bootstrap | Resume | Delta | Backfill

  /** A window a run has decided to ingest: the UIDVALIDITY it read and the UID range, empty when hi < lo. */
  datatype Plan = Plan(goal: Goal, v: nat, lo: nat, hi: nat)

  datatype Job =
    | Idle
    | FullHead(v: nat, head: nat)
    | Fetching(plan: Plan)
    | Ingesting(plan: Plan, batch: seq<RemoteMessage>, done: nat, bound: nat)
    | ReconcileHead(v: nat, e: nat, l: nat)
    | Comparing(v: nat, e: nat, l: nat, ids: set<string>, todo: set<string>)

  datatype World = World(remote: Mailbox, row: Option<SyncState>, sources: map<string, Source>, job: Job)

  // ---------- Decisions of the runs ----------

  predicate NeedsFreshBootstrap(row: Option<SyncState>, v: nat, head: nat) {
    || row.None?
    || row.value.validity != Some(v)
    || !row.value.bootstrapped
    || (head > 0 && (row.value.latest.None? || row.value.earliest.None? || row.value.snapshot.None?))
  }

  /** The newest bounded window, empty for an empty mailbox. */
  function BootstrapPlan(v: nat, head: nat, w: Window): Plan {
    Plan(Bootstrap, v, WindowStart(head, w), head)
  }

  function HeadPlan(goal: Goal, st: SyncState, v: nat, head: nat, w: Window): Plan {
    var start := OrElse(st.latest, 0) + 1;
    Plan(goal, v, start, Min(head, start + w - 1))
  }

  function BackfillPlan(v: nat, next: nat, w: Window): Plan {
    Plan(Backfill, v, WindowStart(next, w), next)
  }

  function NextBelow(lo: nat): Option<nat> {
    if lo > 1 then Some(lo - 1) else None
  }

  /** The cursor row a run writes once its whole window is ingested. */
  function WrittenRow(p: Plan, st: SyncState): SyncState {
    match p.goal
    case Bootstrap =>
      if p.hi == 0 then SyncState(Some(p.v), None, None, None, None, true)
      else SyncState(Some(p.v), Some(p.hi), Some(p.lo), Some(p.hi), NextBelow(p.lo), true)
    case Resume => st.(validity := Some(p.v), latest := Some(p.hi))
    case Delta => st.(validity := Some(p.v), latest := Some(p.hi), earliest := Some(OrElse(st.earliest, p.lo)))
    case Backfill => st.(validity := Some(p.v), earliest := Some(p.lo), next := NextBelow(p.lo))
  }

  /** Active sources with the stored UIDVALIDITY and a UID in the window: what a reconcile run examines. */
  function LocalSources(sources: map<string, Source>, v: nat, e: nat, l: nat): set<string> {
    set r | r in sources && sources[r].active && sources[r].validity == v && e <= sources[r].uid <= l
  }

  function Tombstone(sources: map<string, Source>, r: string): map<string, Source>
    requires r in sources
  {
    sources[r := sources[r].(active := false)]
  }

  /** The non-empty remote ids a reconcile fetch of the window collects. */
  function RemoteIds(mb: Mailbox, e: nat, l: nat): set<string> {
    set u | u in mb.msgs && e <= u <= l && mb.msgs[u].remoteId != "" :: mb.msgs[u].remoteId
  }

  // ---------- Steps ----------

  ghost predicate Outside(w: World, w': World) {
    exists e: Event :: Enabled(w.remote, e) && w' == w.(remote := Apply(w.remote, e))
  }

  ghost predicate Crash(w: World, w': World) { w' == w.(job := Idle) }

  /** Connecting a Gmail account seeds an all-null row when there is none (server/actions.ts). */
  ghost predicate SeedRow(w: World, w': World) {
    w.row.None? && w' == w.(row := Some(CLEARED))
  }

  ghost predicate ReadFullHead(w: World, w': World) {
    w.job.Idle? && w' == w.(job := FullHead(w.remote.validity, HeadUid(w.remote)))
  }

  /** `ensureBootstrapStateRow`: every cursor is nulled before the first message of the epoch is read. */
  ghost predicate StartBootstrap(w: World, w': World, win: Window) {
    && w.job.FullHead?
    && NeedsFreshBootstrap(w.row, w.job.v, w.job.head)
    && var p := BootstrapPlan(w.job.v, w.job.head, win);
       w' == w.(row := Some(CLEARED), job := if w.job.head == 0 then Ingesting(p, [], 0, 0) else Fetching(p))
  }

  ghost predicate StartResume(w: World, w': World, win: Window) {
    && w.job.FullHead?
    && !NeedsFreshBootstrap(w.row, w.job.v, w.job.head)
    && var p := HeadPlan(Resume, w.row.value, w.job.v, w.job.head, win);
       p.lo <= w.job.head && w' == w.(job := Fetching(p))
  }

  ghost predicate StartDelta(w: World, w': World, win: Window) {
    && w.job.Idle? && w.row.Some?
    && (w.row.value.validity.Some? ==> w.row.value.validity.value == w.remote.validity)
    && var p := HeadPlan(Delta, w.row.value, w.remote.validity, HeadUid(w.remote), win);
       p.lo <= HeadUid(w.remote) && w' == w.(job := Fetching(p))
  }

  ghost predicate StartBackfill(w: World, w': World, win: Window) {
    && w.job.Idle? && w.row.Some? && w.row.value.next.Some?
    && (w.row.value.validity.Some? ==> w.row.value.validity.value == w.remote.validity)
    && w' == w.(job := Fetching(BackfillPlan(w.remote.validity, w.row.value.next.value, win)))
  }

  ghost predicate Fetch(w: World, w': World) {
    && w.job.Fetching? && w'.job.Ingesting?
    && IsBatch(w.remote, w.job.plan.lo, w.job.plan.hi, w'.job.batch)
    && w' == w.(job := Ingesting(w.job.plan, w'.job.batch, 0, w.remote.uidNext))
  }

  ghost predicate IngestOne(w: World, w': World) {
    && w.job.Ingesting? && w.job.done < |w.job.batch|
    && var m := w.job.batch[w.job.done];
       && ValidRemoteId(m.remoteId)
       && m.remoteId in w'.sources
       && w' == w.(sources := w.sources[m.remoteId := IngestedSource(w'.sources[m.remoteId].messageId, m,
                                                                     w.job.plan.v)],
                   job := w.job.(done := w.job.done + 1))
  }

  ghost predicate WriteCursors(w: World, w': World) {
    && w.job.Ingesting? && w.job.done == |w.job.batch| && w.row.Some?
    && w' == w.(row := Some(WrittenRow(w.job.plan, w.row.value)), job := Idle)
  }

  ghost predicate StartReconcile(w: World, w': World) {
    && w.job.Idle? && w.row.Some?
    && w.row.value.validity == Some(w.remote.validity) && w.row.value.earliest.Some? && w.row.value.latest.Some?
    && w' == w.(job := ReconcileHead(w.remote.validity, w.row.value.earliest.value, w.row.value.latest.value))
  }

  ghost predicate FetchIds(w: World, w': World) {
    && w.job.ReconcileHead?
    && var (v, e, l) := (w.job.v, w.job.e, w.job.l);
       w' == w.(job := Comparing(v, e, l, RemoteIds(w.remote, e, l), LocalSources(w.sources, v, e, l)))
  }

  /** One source of the examined list: tombstoned when its non-empty remote id was not fetched, skipped otherwise. */
  ghost predicate CompareOne(w: World, w': World) {
    && w.job.Comparing?
    && exists r :: r in w.job.todo && ComparedWith(w, w', r)
  }

  ghost predicate ComparedWith(w: World, w': World, r: string)
    requires w.job.Comparing?
  {
    && r in w.sources
    && w' == w.(sources := if r != "" && r !in w.job.ids then Tombstone(w.sources, r) else w.sources,
                job := w.job.(todo := w.job.todo - {r}))
  }

  ghost predicate EndReconcile(w: World, w': World) {
    w.job.Comparing? && w.job.todo == {} && w' == w.(job := Idle)
  }

  /** Re-parsing a stored message rewrites content, never the mirror columns. */
  ghost predicate Reextract(w: World, w': World) {
    exists r, sha :: r in w.sources && w' == w.(sources := w.sources[r := w.sources[r].(sha := sha)])
  }

  ghost predicate Next(w: World, w': World, win: Window) {
    || Outside(w, w') || Crash(w, w') || SeedRow(w, w')
    || ReadFullHead(w, w') || StartBootstrap(w, w', win) || StartResume(w, w', win)
    || StartDelta(w, w', win) || StartBackfill(w, w', win)
    || Fetch(w, w') || IngestOne(w, w') || WriteCursors(w, w')
    || StartReconcile(w, w') || FetchIds(w, w') || CompareOne(w, w') || EndReconcile(w, w')
    || Reextract(w, w')
  }

  ghost predicate Init(w: World) {
    WellFormed(w.remote) && w.row.None? && w.sources == map[] && w.job.Idle?
  }

  ghost predicate IsRun(run: seq<World>, win: Window) {
    && |run| > 0 && Init(run[0])
    && forall i :: 0 <= i < |run| - 1 ==> Next(run[i], run[i + 1], win)
  }

  // ---------- What the runs promise ----------

  /** The stored epoch is the mailbox's and an interval is claimed. */
  ghost predicate Claims(w: World, u: nat) {
    && w.row.Some?
    && var st := w.row.value;
       && st.validity == Some(w.remote.validity)
       && st.earliest.Some? && st.latest.Some?
       && st.earliest.value <= u <= st.latest.value
  }

  /** An active source row of this remote id carries UID `u` of epoch `v`. */
  ghost predicate Carries(sources: map<string, Source>, remoteId: string, u: nat, v: nat) {
    && remoteId in sources
    && sources[remoteId].active && sources[remoteId].uid == u && sources[remoteId].validity == v
  }

  /** Every present message in the claimed interval is mirrored, exactly when the server returns its source. */
  ghost predicate Covered(w: World) {
    forall u :: u in w.remote.msgs && Claims(w, u) ==>
      (Carries(w.sources, w.remote.msgs[u].remoteId, u, w.remote.validity) <==> w.remote.msgs[u].hasBody)
  }

  /** `backfill_next_uid` is the UID below the interval, or null once UID 1 is inside it. */
  ghost predicate CursorShape(st: SyncState) {
    && (st.latest.Some? <==> st.earliest.Some?)
    && (st.earliest.None? ==> st.next.None?)
    && (st.earliest.Some? ==> 1 <= st.earliest.value <= st.latest.value && st.next == NextBelow(st.earliest.value))
    && (st.validity.None? ==> st == CLEARED)
    && (st.next.Some? ==> st.bootstrapped)
    && (st.snapshot.Some? ==> st.latest.Some? && st.snapshot.value <= st.latest.value)
  }

  // ---------- The invariant ----------

  /** Rows of the current epoch carry UIDs already assigned, and only of messages that had a source. */
  ghost predicate SourcesSound(w: World) {
    forall r :: r in w.sources ==>
      && ValidRemoteId(r)
      && w.sources[r].validity <= w.remote.validity
      && (w.sources[r].validity == w.remote.validity ==>
            && w.sources[r].uid < w.remote.uidNext
            && (w.sources[r].uid in w.remote.msgs ==> SameMessage(w.remote.msgs[w.sources[r].uid], r)))
  }

  ghost predicate SameMessage(m: RemoteMessage, r: string) { m.remoteId == r && m.hasBody }

  ghost predicate RowSound(w: World) {
    w.row.Some? ==>
      var st := w.row.value;
      && CursorShape(st)
      && (st.validity.Some? ==> st.validity.value <= w.remote.validity)
      && (st.validity == Some(w.remote.validity) && st.latest.Some? ==> st.latest.value < w.remote.uidNext)
  }

  /** The plan fits the stored cursors: it starts right after or ends right before the claimed interval. */
  ghost predicate PlanFits(p: Plan, row: Option<SyncState>, remote: Mailbox, win: Window) {
    && row.Some?
    && p.v <= remote.validity
    && (p.v == remote.validity ==> p.hi < remote.uidNext)
    && 1 <= p.lo
    && match p.goal
       case Bootstrap => row.value == CLEARED && (p.hi == 0 || p.lo <= p.hi)
       case Resume =>
         row.value.validity == Some(p.v) && row.value.latest.Some? && p.lo == row.value.latest.value + 1 <= p.hi
       case Delta =>
         (row.value.validity.Some? ==> row.value.validity == Some(p.v))
         && p.lo == OrElse(row.value.latest, 0) + 1 <= p.hi
       case Backfill =>
         row.value.validity == Some(p.v) && row.value.next == Some(p.hi) && p.lo == WindowStart(p.hi, win) <= p.hi
  }

  /** What a batch read earlier still says about the mailbox of the same epoch. */
  ghost predicate BatchSound(p: Plan, batch: seq<RemoteMessage>, done: nat, bound: nat, remote: Mailbox,
                             sources: map<string, Source>) {
    && p.hi < bound <= remote.uidNext
    && (forall i, j :: 0 <= i < j < |batch| ==> batch[i].uid != batch[j].uid)
    && (forall u :: InRange(remote, p.lo, p.hi, u) && remote.msgs[u].hasBody ==> remote.msgs[u] in batch)
    && (forall i :: 0 <= i < |batch| ==> Fetched(batch[i], bound, remote))
    && (forall i :: 0 <= i < done && i < |batch| && batch[i].uid in remote.msgs ==>
        Carries(sources, batch[i].remoteId, batch[i].uid, remote.validity))
  }

  /** A fetched message: had a source, and no other message known at fetch time shares its id. */
  ghost predicate Fetched(b: RemoteMessage, bound: nat, remote: Mailbox) {
    && b.hasBody
    && b.uid < bound
    && (b.uid in remote.msgs ==> remote.msgs[b.uid] == b)
    && (b.remoteId != "" ==> forall u :: u in remote.msgs && u < bound && remote.msgs[u].remoteId == b.remoteId ==>
        u == b.uid)
  }

  ghost predicate JobSound(w: World, win: Window) {
    match w.job
    case Idle => true
    case FullHead(v, head) => v <= w.remote.validity && (v == w.remote.validity ==> head < w.remote.uidNext)
    case Fetching(p) => PlanFits(p, w.row, w.remote, win) && p.lo <= p.hi
    case Ingesting(p, batch, done, bound) =>
      && PlanFits(p, w.row, w.remote, win)
      && done <= |batch|
      && (p.hi == 0 ==> batch == [])
      && (p.v == w.remote.validity && p.hi > 0 ==>
            && BatchSound(p, batch, done, bound, w.remote, w.sources)
            && (w.row.value.latest.Some? ==> w.row.value.latest.value < bound))
    case ReconcileHead(v, e, l) => ReconcileFits(w, v, e, l)
    case Comparing(v, e, l, ids, todo) =>
      && ReconcileFits(w, v, e, l)
      && (v == w.remote.validity ==>
            forall u :: InRange(w.remote, e, l, u) && w.remote.msgs[u].remoteId != "" ==>
              w.remote.msgs[u].remoteId in ids)
      && (forall r :: r in todo ==> r in w.sources)
  }

  ghost predicate ReconcileFits(w: World, v: nat, e: nat, l: nat) {
    && v <= w.remote.validity
    && w.row.Some? && w.row.value.validity == Some(v) && w.row.value.earliest == Some(e)
      && w.row.value.latest == Some(l)
  }

  ghost predicate Inv(w: World, win: Window) {
    WellFormed(w.remote) && SourcesSound(w) && RowSound(w) && Covered(w) && JobSound(w, win)
  }
}
