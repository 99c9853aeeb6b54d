/** Coverage, cursor shape and reconcile exactness of the mirror machine, for every run. */
module MirrorProofs {
  import opened Common
  import opened RemoteMailbox
  import opened MailStore
  import opened MirrorMachine

  lemma OutsideKeepsInv(w: World, w': World, win: Window)
    requires Inv(w, win) && Outside(w, w')
    ensures Inv(w', win)
  {
    var e: Event :| Enabled(w.remote, e) && w' == w.(remote := Apply(w.remote, e));
    EventKeepsWellFormed(w.remote, e);
    OutsideKeepsJob(w, e, win);
  }

  lemma OutsideKeepsJob(w: World, e: Event, win: Window)
    requires Inv(w, win) && Enabled(w.remote, e)
    ensures JobSound(w.(remote := Apply(w.remote, e)), win)
  {
    EventKeepsWellFormed(w.remote, e);
  }

  lemma IngestKeepsInv(w: World, w': World, win: Window)
    requires Inv(w, win) && IngestOne(w, w')
    ensures Inv(w', win)
  {
    IngestKeepsJob(w, w', win);
  }

  lemma IngestKeepsJob(w: World, w': World, win: Window)
    requires Inv(w, win) && IngestOne(w, w')
    ensures JobSound(w', win)
  {
  }

  lemma WriteKeepsInv(w: World, w': World, win: Window)
    requires Inv(w, win) && WriteCursors(w, w')
    ensures Inv(w', win)
  {
    WriteKeepsCovered(w, w', win);
  }

  lemma WriteKeepsCovered(w: World, w': World, win: Window)
    requires Inv(w, win) && WriteCursors(w, w')
    ensures Covered(w')
  {
  }

  lemma FetchKeepsInv(w: World, w': World, win: Window)
    requires Inv(w, win) && Fetch(w, w')
    ensures Inv(w', win)
  {
  }

  lemma StartKeepsInv(w: World, w': World, win: Window)
    requires Inv(w, win)
    requires Crash(w, w') || SeedRow(w, w') || ReadFullHead(w, w') || StartBootstrap(w, w', win)
               || StartResume(w, w', win)
             || StartDelta(w, w', win) || StartBackfill(w, w', win)
    ensures Inv(w', win)
  {
  }

  lemma ReconcileKeepsInv(w: World, w': World, win: Window)
    requires Inv(w, win)
    requires StartReconcile(w, w') || FetchIds(w, w') || CompareOne(w, w') || EndReconcile(w, w')
    ensures Inv(w', win)
  {
  }

  lemma ReextractKeepsInv(w: World, w': World, win: Window)
    requires Inv(w, win) && Reextract(w, w')
    ensures Inv(w', win)
  {
    var r, sha :| r in w.sources && w' == w.(sources := w.sources[r := w.sources[r].(sha := sha)]);
    ReextractKeepsJob(w, r, sha, win);
  }

  lemma ReextractKeepsJob(w: World, r: string, sha: string, win: Window)
    requires Inv(w, win) && r in w.sources
    ensures JobSound(w.(sources := w.sources[r := w.sources[r].(sha := sha)]), win)
  {
  }

  lemma NextKeepsInv(w: World, w': World, win: Window)
    requires Inv(w, win) && Next(w, w', win)
    ensures Inv(w', win)
  {
    if Outside(w, w') {
      OutsideKeepsInv(w, w', win);
    } else if IngestOne(w, w') {
      IngestKeepsInv(w, w', win);
    } else if WriteCursors(w, w') {
      WriteKeepsInv(w, w', win);
    } else if Fetch(w, w') {
      FetchKeepsInv(w, w', win);
    } else if StartReconcile(w, w') || FetchIds(w, w') || CompareOne(w, w') || EndReconcile(w, w') {
      ReconcileKeepsInv(w, w', win);
    } else if Reextract(w, w') {
      ReextractKeepsInv(w, w', win);
    } else {
      StartKeepsInv(w, w', win);
    }
  }

  lemma {:induction false} RunKeepsInv(run: seq<World>, win: Window, i: nat)
    requires IsRun(run, win) && i < |run|
    ensures Inv(run[i], win)
  {
    if i > 0 {
      RunKeepsInv(run, win, i - 1);
      NextKeepsInv(run[i - 1], run[i], win);
    }
  }

  /**
   * Mirror coverage. In every reachable state, whatever the outside world and crashes do between any two steps, a
   * present message inside the claimed interval of the current epoch has an active source row carrying its UID
   * exactly when the server returns its source, and the cursor row keeps its shape.
   */
  lemma MirrorCoverage(run: seq<World>, win: Window, i: nat, u: nat)
    requires IsRun(run, win) && i < |run|
    ensures run[i].row.Some? ==> CursorShape(run[i].row.value)
    ensures u in run[i].remote.msgs && Claims(run[i], u) ==>
              (Carries(run[i].sources, run[i].remote.msgs[u].remoteId, u, run[i].remote.validity)
               <==> run[i].remote.msgs[u].hasBody)
  {
    RunKeepsInv(run, win, i);
  }

  /** A mailbox whose only message is returned without a source. */
  const BODYLESS := RemoteMessage(1, "m", "t", "s", None, false)

  /** The half of coverage that fails: a bootstrap claims UID 1 though its message was returned without a source. */
  lemma BodylessMessageIsPassedOver() returns (run: seq<World>)
    ensures IsRun(run, 250)
    ensures var w := run[|run| - 1];
            1 in w.remote.msgs && Claims(w, 1) && !Carries(w.sources, w.remote.msgs[1].remoteId, 1, w.remote.validity)
  {
    var mb := Mailbox(7, 2, map[1 := BODYLESS]);
    var p := BootstrapPlan(7, 1, 250);
    var w0 := World(mb, None, map[], Idle);
    var w1 := w0.(job := FullHead(7, 1));
    var w2 := w0.(row := Some(CLEARED), job := Fetching(p));
    var w3 := w2.(job := Ingesting(p, [], 0, 2));
    var w4 := w3.(row := Some(SyncState(Some(7), Some(1), Some(1), Some(1), None, true)), job := Idle);
    assert ReadFullHead(w0, w1) && StartBootstrap(w1, w2, 250) && Fetch(w2, w3) && WriteCursors(w3, w4);
    run := [w0, w1, w2, w3, w4];
  }

  // ---------- Messages that cannot be stored ----------

  /** A present message with a source whose remote id is not a plain file name. */
  ghost predicate Unusable(mb: Mailbox, u: nat) {
    u in mb.msgs && mb.msgs[u].hasBody && !ValidRemoteId(mb.msgs[u].remoteId)
  }

  /**
   * A run whose window holds such a message never writes its cursors while the epoch it read is current, and the
   * claimed interval never reaches the message. So while the message stays, every run over that window ends short.
   */
  lemma UnusableIdStopsRuns(run: seq<World>, win: Window, i: nat, u: nat)
    requires IsRun(run, win) && i < |run| && Unusable(run[i].remote, u)
    ensures !Claims(run[i], u)
    ensures run[i].job.Ingesting? && run[i].job.plan.v == run[i].remote.validity
              && run[i].job.plan.lo <= u <= run[i].job.plan.hi ==>
              forall w' :: !WriteCursors(run[i], w')
  {
    RunKeepsInv(run, win, i);
    if run[i].job.Ingesting? && run[i].job.plan.lo <= u <= run[i].job.plan.hi {
      assert InRange(run[i].remote, run[i].job.plan.lo, run[i].job.plan.hi, u);
    }
  }

  /** A message without a remote id. */
  const NAMELESS := RemoteMessage(1, "", "t", "s", None, true)

  /** A run that fetched such a message can neither ingest it nor write its cursors. */
  lemma NamelessMessageStopsRun() returns (run: seq<World>)
    ensures IsRun(run, 250)
    ensures var w := run[|run| - 1];
            && w.job.Ingesting? && w.job.plan.v == w.remote.validity && Unusable(w.remote, 1)
            && forall w' :: !IngestOne(w, w') && !WriteCursors(w, w')
  {
    var mb := Mailbox(7, 2, map[1 := NAMELESS]);
    var p := BootstrapPlan(7, 1, 250);
    var w0 := World(mb, None, map[], Idle);
    var w1 := w0.(job := FullHead(7, 1));
    var w2 := w0.(row := Some(CLEARED), job := Fetching(p));
    var w3 := w2.(job := Ingesting(p, [NAMELESS], 0, 2));
    assert ReadFullHead(w0, w1) && StartBootstrap(w1, w2, 250) && Fetch(w2, w3);
    run := [w0, w1, w2, w3];
  }

  // ---------- Deltas without a bootstrap ----------

  /** A seeded cursor row, moved by delta runs only. */
  predicate MovedByDeltasOnly(st: SyncState) {
    !st.bootstrapped && st.next.None? && (st == CLEARED || (st.earliest == Some(1) && st.latest.Some?))
  }

  /** An account that was never bootstrapped is mirrored by its delta runs all the same, upward from UID 1. */
  lemma DeltasMirrorFromOne(st: SyncState, v: nat, head: nat, win: Window)
    requires MovedByDeltasOnly(st) && OrElse(st.latest, 0) < head
    ensures var written := WrittenRow(HeadPlan(Delta, st, v, head, win), st);
            && MovedByDeltasOnly(written) && written.earliest == Some(1)
            && written.latest == Some(Min(head, OrElse(st.latest, 0) + win))
  {
  }

  // ---------- Growth and tiling ----------

  /** The two steps that restart an epoch: nulling the cursors and seeding them again. */
  ghost predicate BootstrapStep(w: World, w': World, win: Window) {
    StartBootstrap(w, w', win) || (WriteCursors(w, w') && w.job.plan.goal == Bootstrap)
  }

  /** A stretch of a run without a bootstrap. */
  ghost predicate IsStretch(run: seq<World>, win: Window) {
    && |run| > 0 && Inv(run[0], win)
    && forall i :: 0 <= i < |run| - 1 ==> Next(run[i], run[i + 1], win) && !BootstrapStep(run[i], run[i + 1], win)
  }

  ghost predicate IntervalWithin(a: Option<SyncState>, b: Option<SyncState>) {
    a.Some? && a.value.earliest.Some? && a.value.latest.Some? ==>
      && b.Some? && b.value.earliest.Some? && b.value.latest.Some?
      && b.value.earliest.value <= a.value.earliest.value && a.value.latest.value <= b.value.latest.value
  }

  lemma {:induction false} StretchKeepsInv(run: seq<World>, win: Window, i: nat)
    requires IsStretch(run, win) && i < |run|
    ensures Inv(run[i], win)
  {
    if i > 0 {
      StretchKeepsInv(run, win, i - 1);
      NextKeepsInv(run[i - 1], run[i], win);
    }
  }

  /** Between bootstraps the claimed interval only grows. */
  lemma {:induction false} IntervalOnlyGrows(run: seq<World>, win: Window, i: nat, j: nat)
    requires IsStretch(run, win) && i <= j < |run|
    ensures IntervalWithin(run[i].row, run[j].row)
    decreases j
  {
    if i < j {
      IntervalOnlyGrows(run, win, i, j - 1);
      StretchKeepsInv(run, win, j - 1);
    }
  }

  ghost predicate BackfillWrite(w: World, w': World) {
    WriteCursors(w, w') && w.job.plan.goal == Backfill
  }

  ghost function PendingUid(w: World): Option<nat> {
    if w.row.Some? then w.row.value.next else None
  }

  /** The windows the cursor still has to visit, newest first. */
  function BackfillWindows(next: Option<nat>, win: Window): (windows: seq<(nat, nat)>)
    decreases OrElse(next, 0)
  {
    if next.None? || next.value == 0 then []
    else
      var lo := WindowStart(next.value, win);
      [(lo, next.value)] + BackfillWindows(NextBelow(lo), win)
  }

  /** The windows a stretch completes, in order. */
  ghost function BackfillsDone(run: seq<World>): seq<(nat, nat)>
    requires |run| > 0
  {
    if |run| == 1 then [] else FirstDone(run) + BackfillsDone(run[1..])
  }

  ghost function FirstDone(run: seq<World>): seq<(nat, nat)>
    requires |run| > 1
  {
    if BackfillWrite(run[0], run[1]) then [(run[0].job.plan.lo, run[0].job.plan.hi)] else []
  }

  lemma StepVisitsNextWindow(w: World, w': World, win: Window)
    requires Inv(w, win) && Next(w, w', win) && !BootstrapStep(w, w', win)
    ensures BackfillWindows(PendingUid(w), win)
         == (if BackfillWrite(w, w') then [(w.job.plan.lo, w.job.plan.hi)] else [])
           + BackfillWindows(PendingUid(w'), win)
  {
  }

  /**
   * Whatever else happens in between, the completed backfills are the pending windows in order, none skipped or
   * repeated.
   */
  lemma {:induction false} BackfillsVisitPendingWindows(run: seq<World>, win: Window)
    requires IsStretch(run, win)
    ensures BackfillWindows(PendingUid(run[0]), win)
              == BackfillsDone(run) + BackfillWindows(PendingUid(run[|run| - 1]), win)
    decreases |run|
  {
    if |run| > 1 {
      var rest := run[1..];
      StepVisitsNextWindow(run[0], run[1], win);
      RestIsStretch(run, win);
      BackfillsVisitPendingWindows(rest, win);
      assert rest[0] == run[1] && rest[|rest| - 1] == run[|run| - 1];
    }
  }

  lemma RestIsStretch(run: seq<World>, win: Window)
    requires IsStretch(run, win) && |run| > 1
    ensures IsStretch(run[1..], win)
  {
    NextKeepsInv(run[0], run[1], win);
    var rest := run[1..];
    forall i | 0 <= i < |rest| - 1
      ensures Next(rest[i], rest[i + 1], win) && !BootstrapStep(rest[i], rest[i + 1], win)
    {
      assert rest[i] == run[i + 1];
    }
  }

  /** The pending windows tile [1, next]: each starts where the previous one ended, and the last one ends at UID 1. */
  lemma {:induction false} PendingWindowsTile(next: nat, win: Window)
    requires next >= 1
    ensures var ws := BackfillWindows(Some(next), win);
            && |ws| > 0 && ws[0].1 == next && ws[|ws| - 1].0 == 1
            && (forall i :: 0 <= i < |ws| ==> 1 <= ws[i].0 <= ws[i].1 && ws[i].1 - ws[i].0 < win)
            && (forall i :: 0 <= i < |ws| - 1 ==> ws[i + 1].1 == ws[i].0 - 1 && ws[i].1 - ws[i].0 + 1 == win)
    decreases next
  {
    var lo := WindowStart(next, win);
    if lo > 1 {
      PendingWindowsTile(lo - 1, win);
    }
  }

  /** `k` windows of `win` UIDs are what `n` UIDs need: k is n / win rounded up. */
  ghost predicate RoundedUp(k: nat, n: nat, win: Window) {
    n <= k * win && (k > 0 ==> (k - 1) * win < n)
  }

  lemma {:induction false} PendingWindowCount(next: nat, win: Window)
    ensures RoundedUp(|BackfillWindows(Some(next), win)|, next, win)
    decreases next
  {
    if next > win {
      PendingWindowCount(next - win, win);
      var k := |BackfillWindows(Some(next - win), win)|;
      assert |BackfillWindows(Some(next), win)| == k + 1;
      assert (k + 1) * win == k * win + win;
      assert k > 0 && k * win == (k - 1) * win + win;
    } else if next > 0 {
      assert |BackfillWindows(Some(next), win)| == 1;
    }
  }

  /** Draining the whole history takes exactly next / window successful runs, rounded up. */
  lemma BackfillRunsNeeded(run: seq<World>, win: Window)
    requires IsStretch(run, win)
    requires PendingUid(run[0]).Some? && PendingUid(run[|run| - 1]).None?
    ensures RoundedUp(|BackfillsDone(run)|, PendingUid(run[0]).value, win)
  {
    BackfillsVisitPendingWindows(run, win);
    PendingWindowCount(PendingUid(run[0]).value, win);
  }

  // ---------- Reconcile ----------

  /** The table after a reconcile run that examined the window and fetched the remote ids `ids`. */
  ghost function Reconciled(sources: map<string, Source>, v: nat, e: nat, l: nat, ids: set<string>)
    : map<string, Source>
  {
    map r | r in sources ::
      if r in LocalSources(sources, v, e, l) && r != "" && r !in ids then sources[r].(active := false) else sources[r]
  }

  /** A row is inside the reconciled window. */
  ghost predicate InWindow(sources: map<string, Source>, r: string, v: nat, e: nat, l: nat) {
    r in LocalSources(sources, v, e, l)
  }

  /**
   * The active rows of the window are the messages of the window: every present message with a source keeps its row
   * under its own UID, and every row names a present message, under its UID when the server returns its source.
   */
  ghost predicate MirrorsWindow(sources: map<string, Source>, mb: Mailbox, e: nat, l: nat) {
    && (forall u :: InRange(mb, e, l, u) && mb.msgs[u].hasBody ==>
        Carries(sources, mb.msgs[u].remoteId, u, mb.validity))
    && (forall r :: InWindow(sources, r, mb.validity, e, l) ==> exists u :: NamesMessage(sources[r], mb, e, l, u, r))
  }

  ghost predicate NamesMessage(s: Source, mb: Mailbox, e: nat, l: nat, u: nat, r: string) {
    InRange(mb, e, l, u) && mb.msgs[u].remoteId == r && (mb.msgs[u].hasBody ==> s.uid == u)
  }

  /**
   * Reconcile exactness. Against the mailbox the ids were fetched from, what stays active in the window is what is
   * there.
   */
  lemma ReconcileMatchesMailbox(w: World, win: Window, e: nat, l: nat)
    requires Inv(w, win)
    requires w.row.Some? && w.row.value.validity == Some(w.remote.validity)
    requires w.row.value.earliest == Some(e) && w.row.value.latest == Some(l)
    ensures MirrorsWindow(Reconciled(w.sources, w.remote.validity, e, l, RemoteIds(w.remote, e, l)), w.remote, e, l)
  {
    var v := w.remote.validity;
    var ids := RemoteIds(w.remote, e, l);
    var after := Reconciled(w.sources, v, e, l, ids);
    forall u | InRange(w.remote, e, l, u) && w.remote.msgs[u].hasBody
      ensures Carries(after, w.remote.msgs[u].remoteId, u, v)
    {
      assert Claims(w, u);
    }
    forall r | InWindow(after, r, v, e, l) ensures exists u :: NamesMessage(after[r], w.remote, e, l, u, r) {
      assert r in LocalSources(w.sources, v, e, l) && r in ids;
      var u :| u in w.remote.msgs && e <= u <= l && w.remote.msgs[u].remoteId == r;
      assert InRange(w.remote, e, l, u) && Claims(w, u);
      assert NamesMessage(after[r], w.remote, e, l, u, r);
    }
  }
}
