/**
 * The four sync runs of lib/sync.ts in their own, imperative form. Between any two awaited operations the outside
 * world may act and the process may die; every state passed through is recorded, and the record is a run of the
 * mirror machine, so whatever holds in every machine run holds at every moment of these runs.
 */
module MirrorRuns {
  import opened Common
  import opened RemoteMailbox
  import opened MailStore
  import opened MirrorMachine
  import opened MirrorProofs

  /** Why a run threw or died: it broke down, met a remote id it cannot store, or found no cursor row. */
  datatype Cause = Broke | Refused | NoState

  datatype RunEnd = Interrupted(cause: Cause) | Skipped | ResyncRequired | NothingNew | Finished

  lemma OutsideStep(w: World, e: Event)
    requires Enabled(w.remote, e)
    ensures Outside(w, w.(remote := Apply(w.remote, e)))
  {
  }

  /** The mailbox was in this state at some recorded moment of the call. */
  ghost predicate PassedThrough(before: seq<World>, after: seq<World>, mb: Mailbox) {
    exists k :: |before| - 1 <= k < |after| && k >= 0 && after[k].remote == mb
  }

  /** The UIDs of the window whose messages come with a source. */
  ghost function Bodied(mb: Mailbox, lo: nat, hi: nat): set<nat> {
    set u | u in mb.msgs && lo <= u <= hi && mb.msgs[u].hasBody
  }

  /** Every fetched message of the window can be stored. */
  ghost predicate UsableWindow(mb: Mailbox, lo: nat, hi: nat) {
    forall u :: u in Bodied(mb, lo, hi) ==> ValidRemoteId(mb.msgs[u].remoteId)
  }

  /**
   * At some recorded moment of the call the window held `fetched` messages with a source, and all of them could be
   * stored exactly when `usable`.
   */
  ghost predicate FetchOutcome(before: seq<World>, after: seq<World>, lo: nat, hi: nat, fetched: nat, usable: bool) {
    exists k :: |before| <= k < |after| && IsOutcome(after[k].remote, lo, hi, fetched, usable)
  }

  ghost predicate IsOutcome(mb: Mailbox, lo: nat, hi: nat, fetched: nat, usable: bool) {
    fetched == |Bodied(mb, lo, hi)| && (usable <==> UsableWindow(mb, lo, hi))
  }

  lemma OutcomeGrows(before: seq<World>, from: seq<World>, to: seq<World>, after: seq<World>, lo: nat, hi: nat,
                     fetched: nat, usable: bool)
    requires before <= from && to <= after && FetchOutcome(from, to, lo, hi, fetched, usable)
    ensures FetchOutcome(before, after, lo, hi, fetched, usable)
  {
    var k :| |from| <= k < |to| && IsOutcome(to[k].remote, lo, hi, fetched, usable);
    assert after[k] == to[k];
  }

  /** The batch was read from the mailbox of some recorded moment of the call. */
  ghost predicate BatchAt(before: seq<World>, after: seq<World>, lo: nat, hi: nat, batch: seq<RemoteMessage>) {
    exists k :: |before| <= k < |after| && WellFormed(after[k].remote) && IsBatch(after[k].remote, lo, hi, batch)
  }

  lemma BatchOutcome(before: seq<World>, from: seq<World>, to: seq<World>, after: seq<World>, lo: nat, hi: nat,
                     batch: seq<RemoteMessage>, usable: bool)
    requires before <= from && to <= after && BatchAt(from, to, lo, hi, batch)
    requires usable <==> AllUsable(batch)
    ensures FetchOutcome(before, after, lo, hi, |batch|, usable)
  {
    var k :| |from| <= k < |to| && WellFormed(to[k].remote) && IsBatch(to[k].remote, lo, hi, batch);
    assert after[k] == to[k];
    BatchIsWindow(after[k].remote, lo, hi, batch);
  }

  predicate AllUsable(batch: seq<RemoteMessage>) {
    forall i :: 0 <= i < |batch| ==> ValidRemoteId(batch[i].remoteId)
  }

  /** A batch has one message per UID of the window with a source. */
  lemma BatchIsWindow(mb: Mailbox, lo: nat, hi: nat, batch: seq<RemoteMessage>)
    requires WellFormed(mb) && IsBatch(mb, lo, hi, batch)
    ensures IsOutcome(mb, lo, hi, |batch|, AllUsable(batch))
  {
    UidCount(batch);
    forall u | u in Bodied(mb, lo, hi) ensures u in Uids(batch) && mb.msgs[u] in batch {
      var i :| 0 <= i < |batch| && batch[i] == mb.msgs[u];
      assert batch[i] in batch && mb.msgs[batch[i].uid] == batch[i];
    }
    assert Uids(batch) == Bodied(mb, lo, hi);
    if UsableWindow(mb, lo, hi) {
      forall i | 0 <= i < |batch| ensures ValidRemoteId(batch[i].remoteId) {
        assert batch[i] in batch && batch[i].uid in Bodied(mb, lo, hi);
      }
    }
  }

  ghost function Uids(batch: seq<RemoteMessage>): set<nat> { set m | m in batch :: m.uid }

  lemma {:induction false} UidCount(batch: seq<RemoteMessage>)
    requires forall i, j :: 0 <= i < j < |batch| ==> batch[i].uid != batch[j].uid
    ensures |Uids(batch)| == |batch|
  {
    if batch != [] {
      var n := |batch| - 1;
      UidCount(batch[..n]);
      assert batch == batch[..n] + [batch[n]];
      assert Uids(batch) == Uids(batch[..n]) + {batch[n].uid};
    }
  }

  lemma PassedThroughGrows(before: seq<World>, after: seq<World>, longer: seq<World>, mb: Mailbox)
    requires PassedThrough(before, after, mb) && after <= longer
    ensures PassedThrough(before, longer, mb)
  {
    var k :| |before| - 1 <= k < |after| && k >= 0 && after[k].remote == mb;
    assert longer[k] == after[k];
  }

  /** At some recorded moment of the call the mailbox, cursor row and sources were those of `w`. */
  ghost predicate FetchedAt(before: seq<World>, after: seq<World>, w: World) {
    exists k :: |before| <= k < |after| && after[k].(job := w.job) == w
  }

  lemma FetchedAtLater(before: seq<World>, from: seq<World>, after: seq<World>, w: World)
    requires before <= from && FetchedAt(from, after, w)
    ensures FetchedAt(before, after, w)
  {
    var k :| |from| <= k < |after| && after[k].(job := w.job) == w;
  }

  /** The table with the sources `gone` tombstoned. */
  ghost function Pruned(sources: map<string, Source>, gone: set<string>): map<string, Source> {
    map r | r in sources :: if r in gone then sources[r].(active := false) else sources[r]
  }

  /** The examined sources outside `kept` are tombstoned, and counted. */
  ghost predicate ComparedSoFar(start: map<string, Source>, now: map<string, Source>, done: set<string>,
                                kept: set<string>, tombstoned: nat) {
    now == Pruned(start, done - kept) && tombstoned == |done - kept|
  }

  /** What is done and what is left make up the examined sources. */
  ghost predicate Splits(done: set<string>, todo: set<string>, start: map<string, Source>, whole: set<string>) {
    done + todo == whole && done !! todo && whole <= start.Keys
  }

  lemma MoveOver(done: set<string>, todo: set<string>, start: map<string, Source>, whole: set<string>, r: string)
    requires Splits(done, todo, start, whole) && r in todo
    ensures r in start && r !in done && Splits(done + {r}, todo - {r}, start, whole)
  {
  }

  lemma ComparedStep(start: map<string, Source>, now: map<string, Source>, done: set<string>, kept: set<string>,
                     tombstoned: nat, r: string)
    requires ComparedSoFar(start, now, done, kept, tombstoned) && r in start && r !in done
    ensures r in now
    ensures if r in kept then ComparedSoFar(start, now, done + {r}, kept, tombstoned)
            else ComparedSoFar(start, Tombstone(now, r), done + {r}, kept, tombstoned + 1)
  {
    assert done + {r} - kept == if r in kept then done - kept else (done - kept) + {r};
  }

  /** The rows that lost their active mark. */
  ghost function Lost(before: map<string, Source>, after: map<string, Source>): set<string> {
    set r | r in before && r in after && before[r].active && !after[r].active
  }

  /** The window a full sync ingests when it reads this mailbox, and the cursors it starts from. */
  ghost function FullPlan(row: Option<SyncState>, mb: Mailbox, win: Window): Plan {
    if NeedsFreshBootstrap(row, mb.validity, HeadUid(mb)) then BootstrapPlan(mb.validity, HeadUid(mb), win)
    else HeadPlan(Resume, row.value, mb.validity, HeadUid(mb), win)
  }

  ghost function FullBase(row: Option<SyncState>, mb: Mailbox): SyncState {
    if NeedsFreshBootstrap(row, mb.validity, HeadUid(mb)) then CLEARED else row.value
  }

  // ---------- The outcome of a run, column by column ----------

  /** The stored cursors continue this mailbox's epoch, so that a full sync need not start over. */
  ghost predicate Resumable(row: Option<SyncState>, mb: Mailbox) {
    && row.Some? && row.value.bootstrapped && row.value.validity == Some(mb.validity)
    && (mb.uidNext > 1 ==> row.value.latest.Some? && row.value.earliest.Some? && row.value.snapshot.Some?)
  }

  ghost predicate IsAllNull(row: Option<SyncState>) {
    && row.Some? && row.value.validity.None? && row.value.latest.None? && row.value.earliest.None?
    && row.value.snapshot.None? && row.value.next.None? && !row.value.bootstrapped
  }

  /** The newest `win` UIDs of the mailbox are claimed, and what lies below them is left to backfills. */
  ghost predicate ClaimsNewest(st: SyncState, mb: Mailbox, win: Window) {
    var head := mb.uidNext - 1;
    && st.bootstrapped && st.validity == Some(mb.validity)
    && if head < 1 then st.latest.None? && st.earliest.None? && st.snapshot.None? && st.next.None?
       else
         && st.latest == Some(head) && st.snapshot == Some(head)
         && (head <= win ==> st.earliest == Some(1) && st.next.None?)
         && (head > win ==> st.earliest == Some(head - win + 1) && st.next == Some(head - win))
  }

  /** The next UID a run upward has to fetch. */
  ghost function AfterLatest(st: SyncState): nat { if st.latest.Some? then st.latest.value + 1 else 1 }

  /** The head cursor has gone up by `win` UIDs, or to the head; the low end is set if there was none. */
  ghost predicate HeadMoved(before: SyncState, after: SyncState, mb: Mailbox, win: Window) {
    var (start, head) := (AfterLatest(before), mb.uidNext - 1);
    && start <= head
    && after.latest == Some(if head < start + win then head else start + win - 1)
    && after.earliest == Some(if before.earliest.Some? then before.earliest.value else start)
    && after.validity == Some(mb.validity) && after.snapshot == before.snapshot && after.next == before.next
    && after.bootstrapped == before.bootstrapped
  }

  /** The low cursor has gone down by `win` UIDs, or to UID 1. */
  ghost predicate LowMoved(before: SyncState, after: SyncState, win: Window) {
    && before.next.Some? && before.next.value >= 1
    && (before.next.value <= win ==> after.earliest == Some(1) && after.next.None?)
    && (before.next.value > win ==>
          after.earliest == Some(before.next.value - win + 1) && after.next == Some(before.next.value - win))
    && after.validity == before.validity && after.latest == before.latest && after.snapshot == before.snapshot
    && after.bootstrapped == before.bootstrapped
  }

  /** A reconcile takes the active mark of the rows of the epoch and interval that name no message found there. */
  ghost predicate GivenUp(s: Source, r: string, v: nat, e: nat, l: nat, seen: Mailbox) {
    && s.active && s.validity == v && e <= s.uid <= l
    && forall u :: InRange(seen, e, l, u) ==> seen.msgs[u].remoteId != r
  }

  /** Those rows lose the mark and nothing else; every other row stays as it is. */
  ghost predicate OnlyGivenUp(before: map<string, Source>, after: map<string, Source>, v: nat, e: nat, l: nat,
                              seen: Mailbox) {
    && after.Keys == before.Keys
    && forall r :: r in before ==>
         after[r] == before[r].(active := before[r].active && !GivenUp(before[r], r, v, e, l, seen))
  }

  /** What a finished full sync leaves, given the mailbox whose head it read. */
  ghost predicate FullSynced(before: Option<SyncState>, after: Option<SyncState>, mb: Mailbox, win: Window) {
    && after.Some? && after.value.bootstrapped
    && if Resumable(before, mb) then HeadMoved(before.value, after.value, mb, win)
       else ClaimsNewest(after.value, mb, win)
  }

  /** It has nothing to do for a mailbox whose head is claimed already. */
  ghost predicate NothingAbove(row: Option<SyncState>, mb: Mailbox) {
    Resumable(row, mb) && mb.uidNext <= AfterLatest(row.value)
  }

  lemma FreshOrResumable(row: Option<SyncState>, mb: Mailbox)
    ensures NeedsFreshBootstrap(row, mb.validity, HeadUid(mb)) <==> !Resumable(row, mb)
  {
  }

  /** The cursors a full sync writes, column by column. */
  lemma FullPlanColumns(row: Option<SyncState>, mb: Mailbox, win: Window)
    ensures var (p, st) := (FullPlan(row, mb, win), FullBase(row, mb));
            if !Resumable(row, mb) then ClaimsNewest(WrittenRow(p, st), mb, win)
            else
              && p.lo == AfterLatest(row.value)
              && (p.lo <= HeadUid(mb) ==> HeadMoved(row.value, WrittenRow(p, st), mb, win))
  {
    FreshOrResumable(row, mb);
  }

  lemma DeltaPlanColumns(st: SyncState, mb: Mailbox, win: Window)
    ensures var p := HeadPlan(Delta, st, mb.validity, HeadUid(mb), win);
            && p.lo == AfterLatest(st)
            && (p.lo <= HeadUid(mb) ==> HeadMoved(st, WrittenRow(p, st), mb, win))
  {
  }

  /** Pruning the examined rows without the ids just fetched is the reconcile, column by column. */
  lemma PrunedIsReconciled(before: map<string, Source>, v: nat, e: nat, l: nat, seen: Mailbox)
    requires forall r :: r in before ==> r != ""
    ensures var gone := LocalSources(before, v, e, l) - RemoteIds(seen, e, l);
            && Pruned(before, gone) == Reconciled(before, v, e, l, RemoteIds(seen, e, l))
            && OnlyGivenUp(before, Pruned(before, gone), v, e, l, seen)
            && |gone| == |Lost(before, Pruned(before, gone))|
  {
    var gone := LocalSources(before, v, e, l) - RemoteIds(seen, e, l);
    forall r | r in before
      ensures r in RemoteIds(seen, e, l) <==> exists u :: InRange(seen, e, l, u) && seen.msgs[u].remoteId == r
    {
      if r in RemoteIds(seen, e, l) {
        var u :| u in seen.msgs && e <= u <= l && seen.msgs[u].remoteId == r;
        assert InRange(seen, e, l, u);
      }
    }
    assert Lost(before, Pruned(before, gone)) == gone;
  }

  /** The stored epoch is known and not the mailbox's. */
  predicate EpochChanged(st: SyncState, mb: Mailbox) {
    st.validity.Some? && mb.validity != st.validity.value
  }

  predicate HasInterval(row: Option<SyncState>) {
    row.Some? && row.value.validity.Some? && row.value.earliest.Some? && row.value.latest.Some?
  }

  lemma OutcomeFrom(before: seq<World>, from: seq<World>, after: seq<World>, lo: nat, hi: nat, fetched: nat,
                    end: RunEnd)
    requires before <= from
    requires end.Finished? || end == Interrupted(Refused) ==> FetchOutcome(from, after, lo, hi, fetched, end.Finished?)
    ensures end.Finished? || end == Interrupted(Refused) ==> FetchOutcome(before, after, lo, hi, fetched, end.Finished?)
  {
    if end.Finished? || end == Interrupted(Refused) {
      OutcomeGrows(before, from, after, after, lo, hi, fetched, end.Finished?);
    }
  }

  class Mirror {
    const win: Window
    const store: Store
    var enabled: bool
    var remote: Mailbox
    var row: Option<SyncState>
    ghost var job: Job
    ghost var history: seq<World>
    /** How often an await has ended in the death of the process or an error. */
    ghost var crashes: nat

    ghost function Now(): World
      reads `remote, `row, `job, store`sources
    {
      World(remote, row, store.sources, job)
    }

    ghost predicate Valid()
      reads `remote, `row, `job, `history, store
    {
      store.Valid() && IsRun(history, win) && history[|history| - 1] == Now()
    }

    constructor (mb: Mailbox, enabled: bool, win: Window)
      requires WellFormed(mb)
      ensures Valid() && job.Idle? && fresh(store)
      ensures remote == mb && row.None? && this.enabled == enabled
    {
      this.win, this.enabled, this.remote, this.row, this.job := win, enabled, mb, None, Idle;
      store := new Store();
      new;
      history, crashes := [Now()], 0;
    }

    /** Appends the state just entered to the record. */
    ghost method Record()
      requires store.Valid() && IsRun(history, win) && Next(history[|history| - 1], Now(), win)
      modifies this`history
      ensures Valid() && history == old(history) + [Now()]
    {
      ghost var longer := history + [Now()];
      forall i | 0 <= i < |longer| - 1 ensures Next(longer[i], longer[i + 1], win) {
        if i < |history| - 1 {
          assert longer[i] == history[i] && longer[i + 1] == history[i + 1];
        }
      }
      history := longer;
    }

    /** An await: any number of outside events, then possibly the end of the process. */
    method Interfere() returns (crashed: bool)
      requires Valid()
      modifies this`remote, this`job, this`history, this`crashes
      ensures Valid() && old(history) <= history
      ensures crashes == old(crashes) + if crashed then 1 else 0
      ensures job == if crashed then Idle else old(job)
    {
      var events: nat := *;
      while events > 0
        invariant Valid() && job == old(job) && old(history) <= history && crashes == old(crashes)
      {
        var e: Event := *;
        if Enabled(remote, e) {
          ghost var before := Now();
          remote := Apply(remote, e);
          OutsideStep(before, e);
          Record();
        }
        events := events - 1;
      }
      crashed := *;
      if crashed {
        crashes := crashes + 1;
        Abandon();
      }
    }

    /** The run is over or dead; its locals are gone. */
    ghost method Abandon()
      requires Valid()
      modifies this`job, this`history
      ensures Valid() && job.Idle? && old(history) <= history
    {
      job := Idle;
      Record();
    }

    /** `fetchMessageRange` or `fetchMessageWindowDescending`, in one read of the mailbox. */
    method FetchPlanned(ghost p: Plan, lo: nat, hi: nat, descending: bool) returns (batch: seq<RemoteMessage>)
      requires Valid() && job == Fetching(p) && p.lo == lo && p.hi == hi
      requires descending ==> lo == WindowStart(hi, win)
      modifies this`job, this`history
      ensures Valid() && old(history) <= history
      ensures job.Ingesting? && job == Ingesting(p, batch, 0, job.bound)
      ensures BatchAt(old(history), history, lo, hi, batch)
      ensures if descending then Descending(batch) else Ascending(batch)
    {
      RunKeepsInv(history, win, |history| - 1);
      var stream := ServerFetch(remote, lo, hi);
      if descending {
        batch := FetchMessageWindowDescending(remote, stream, hi, win);
      } else {
        batch := FetchMessageRange(remote, stream, lo, hi);
      }
      job := Ingesting(p, batch, 0, remote.uidNext);
      Record();
      assert history[|history| - 1].remote == remote;
    }

    /** One message of the loop: a transaction on the tables, or a refusal that ends the run. */
    method IngestNext(ghost p: Plan, batch: seq<RemoteMessage>, i: nat, v: nat) returns (accepted: bool)
      requires Valid() && i < |batch| && job.Ingesting? && job == Ingesting(p, batch, i, job.bound) && p.v == v
      modifies this`job, this`history, store
      ensures Valid() && old(history) <= history
      ensures job == if accepted then Ingesting(p, batch, i + 1, old(job).bound) else Idle
      ensures accepted <==> ValidRemoteId(batch[i].remoteId)
    {
      ghost var before := Now();
      accepted := store.IngestMessage(batch[i], v);
      if !accepted {
        Abandon();
        return;
      }
      job := job.(done := i + 1);
      assert IngestOne(before, Now());
      Record();
    }

    /** An await, then one message. */
    method IngestAfterAwait(ghost p: Plan, batch: seq<RemoteMessage>, i: nat, v: nat) returns (stopped: Option<Cause>)
      requires Valid() && i < |batch| && job.Ingesting? && job == Ingesting(p, batch, i, job.bound) && p.v == v
      modifies this`remote, this`job, this`history, this`crashes, store
      ensures Valid() && old(history) <= history
      ensures crashes == old(crashes) + if stopped == Some(Broke) then 1 else 0
      ensures job == if stopped.None? then Ingesting(p, batch, i + 1, old(job).bound) else Idle
      ensures stopped != Some(NoState)
      ensures stopped != Some(Broke) ==> (stopped.None? <==> ValidRemoteId(batch[i].remoteId))
    {
      var crashed := Interfere();
      if crashed {
        return Some(Broke);
      }
      var accepted := IngestNext(p, batch, i, v);
      return if accepted then None else Some(Refused);
    }

    /** The ingest loop all runs share. It gives up when it breaks down or a message is refused. */
    method IngestBatch(ghost p: Plan, batch: seq<RemoteMessage>, v: nat) returns (stopped: Option<Cause>)
      requires Valid() && job.Ingesting? && job == Ingesting(p, batch, 0, job.bound) && p.v == v
      modifies this`remote, this`job, this`history, this`crashes, store
      ensures Valid() && old(history) <= history
      ensures crashes == old(crashes) + if stopped == Some(Broke) then 1 else 0
      ensures stopped.None? ==> job.Ingesting? && job == Ingesting(p, batch, |batch|, job.bound) && AllUsable(batch)
      ensures stopped.Some? ==> job.Idle? && stopped.value != NoState
      ensures stopped == Some(Refused) ==> !AllUsable(batch)
    {
      for i := 0 to |batch|
        invariant Valid() && old(history) <= history && crashes == old(crashes)
        invariant job.Ingesting? && job == Ingesting(p, batch, i, job.bound)
        invariant AllUsable(batch[..i])
      {
        stopped := IngestAfterAwait(p, batch, i, v);
        if stopped.Some? {
          return;
        }
        assert batch[..i + 1] == batch[..i] + [batch[i]];
      }
      assert batch[..|batch|] == batch;
      var crashed := Interfere();
      return if crashed then Some(Broke) else None;
    }

    /** An await, the fetch of the planned window, and its ingest loop. */
    method IngestWindow(ghost p: Plan, lo: nat, hi: nat, v: nat, descending: bool)
      returns (stopped: Option<Cause>, fetched: nat)
      requires Valid() && job == Fetching(p) && p.lo == lo && p.hi == hi && p.v == v
      requires descending ==> lo == WindowStart(hi, win)
      modifies this`remote, this`job, this`history, this`crashes, store
      ensures Valid() && old(history) <= history
      ensures crashes == old(crashes) + if stopped == Some(Broke) then 1 else 0
      ensures stopped.None? ==> job.Ingesting? && job == Ingesting(p, job.batch, |job.batch|, job.bound)
      ensures stopped.Some? ==> job.Idle? && stopped.value != NoState
      ensures stopped != Some(Broke) ==> FetchOutcome(old(history), history, lo, hi, fetched, stopped.None?)
    {
      fetched := 0;
      var crashed := Interfere();
      if crashed {
        return Some(Broke), 0;
      }
      ghost var from := history;
      var batch := FetchPlanned(p, lo, hi, descending);
      ghost var to := history;
      stopped := IngestBatch(p, batch, v);
      fetched := |batch|;
      BatchOutcome(old(history), from, to, history, lo, hi, batch, AllUsable(batch));
    }

    /** The cursor write that ends a run, with the whole window ingested. */
    method WriteRow(ghost p: Plan, st: SyncState)
      requires Valid() && job.Ingesting? && job == Ingesting(p, job.batch, |job.batch|, job.bound)
      requires row.Some? && st == WrittenRow(p, row.value)
      modifies this`row, this`job, this`history
      ensures Valid() && old(history) <= history && job.Idle? && row == Some(st)
    {
      ghost var before := Now();
      row := Some(st);
      job := Idle;
      assert WriteCursors(before, Now());
      Record();
    }

    method RunFullSync()
      returns (end: RunEnd, fetched: nat, backfillNextUid: Option<nat>, queueDelta: bool, ghost read: Mailbox)
      requires Valid() && job.Idle?
      modifies this`row, this`remote, this`job, this`history, this`crashes, store
      ensures Valid() && job.Idle? && old(history) <= history
      ensures end.Skipped? || end.NothingNew? || end.ResyncRequired? ==> fetched == 0
      ensures crashes == old(crashes) + if end == Interrupted(Broke) then 1 else 0
      ensures (end.Skipped? <==> !enabled) && !end.ResyncRequired? && end != Interrupted(NoState)
      ensures end.Finished? || end.NothingNew? || end == Interrupted(Refused) ==>
                PassedThrough(old(history), history, read)
      ensures end.Finished? ==> FullSynced(old(row), row, read, win)
      ensures end.NothingNew? ==> row == old(row) && NothingAbove(row, read)
      ensures end.Finished? || end == Interrupted(Refused) ==>
                FetchOutcome(old(history), history, FullPlan(old(row), read, win).lo, FullPlan(old(row), read, win).hi,
                             fetched, end.Finished?)
      ensures end.Skipped? ==> row == old(row) && backfillNextUid.None?
      ensures end.Interrupted? ==> row == old(row) || IsAllNull(row)
      ensures end == Interrupted(Refused) ==> if Resumable(old(row), read) then row == old(row) else IsAllNull(row)
      ensures end.Finished? || end.NothingNew? ==>
                row.Some? && row.value.bootstrapped && backfillNextUid == row.value.next
      ensures queueDelta <==> end.Finished? && row.value.latest.Some? && read.uidNext > row.value.latest.value + 1
    {
      fetched, backfillNextUid, queueDelta, read := 0, None, false, remote;
      if !enabled {
        return Skipped, 0, None, false, remote;
      }
      end, fetched, backfillNextUid, queueDelta, read := FullFromHead();
    }

    /** The run of an account whose switch is on. */
    method FullFromHead()
      returns (end: RunEnd, fetched: nat, backfillNextUid: Option<nat>, queueDelta: bool, ghost read: Mailbox)
      requires Valid() && job.Idle?
      modifies this`row, this`remote, this`job, this`history, this`crashes, store
      ensures Valid() && job.Idle? && old(history) <= history
      ensures end.NothingNew? ==> fetched == 0
      ensures crashes == old(crashes) + if end == Interrupted(Broke) then 1 else 0
      ensures end.Finished? || end.NothingNew? || end == Interrupted(Broke) || end == Interrupted(Refused)
      ensures end != Interrupted(Broke) ==> PassedThrough(old(history), history, read)
      ensures end.Finished? ==> FullSynced(old(row), row, read, win)
      ensures end.NothingNew? ==> row == old(row) && NothingAbove(row, read)
      ensures end.Finished? || end == Interrupted(Refused) ==>
                FetchOutcome(old(history), history, FullPlan(old(row), read, win).lo, FullPlan(old(row), read, win).hi,
                             fetched, end.Finished?)
      ensures end.Interrupted? ==> row == old(row) || IsAllNull(row)
      ensures end == Interrupted(Refused) ==> if Resumable(old(row), read) then row == old(row) else IsAllNull(row)
      ensures end.Finished? || end.NothingNew? ==>
                row.Some? && row.value.bootstrapped && backfillNextUid == row.value.next
      ensures queueDelta <==> end.Finished? && row.value.latest.Some? && read.uidNext > row.value.latest.value + 1
    {
      var crashed, currentUidvalidity, currentHeadUid;
      crashed, currentUidvalidity, currentHeadUid, read := ReadHead();
      if crashed { return Interrupted(Broke), 0, None, false, remote; }
      ghost var from := history;
      end, fetched, backfillNextUid, queueDelta := SyncHead(currentUidvalidity, currentHeadUid, read);
      PassedThroughGrows(old(history), from, history, read);
      OutcomeFrom(old(history), from, history, FullPlan(old(row), read, win).lo, FullPlan(old(row), read, win).hi,
                  fetched, end);
    }

    /** The head of the mailbox, read between two awaits. */
    method ReadHead() returns (crashed: bool, v: nat, head: nat, ghost read: Mailbox)
      requires Valid() && job.Idle?
      modifies this`remote, this`job, this`history, this`crashes
      ensures Valid() && old(history) <= history
      ensures crashes == old(crashes) + if crashed then 1 else 0
      ensures if crashed then job.Idle? else job == FullHead(v, head)
      ensures v == read.validity && head == HeadUid(read)
      ensures !crashed ==> PassedThrough(old(history), history, read)
    {
      crashed := Interfere();
      read, v, head := remote, remote.validity, HeadUid(remote);
      if crashed { return; }
      ghost var atRead := history;
      job := FullHead(v, head);
      Record();
      crashed := Interfere();
      assert history[|atRead| - 1].remote == read;
    }

    /** A fresh bootstrap or a resume, decided on the head just read. */
    method SyncHead(v: nat, head: nat, ghost read: Mailbox)
      returns (end: RunEnd, fetched: nat, backfillNextUid: Option<nat>, queueDelta: bool)
      requires Valid() && job == FullHead(v, head) && v == read.validity && head == HeadUid(read)
      modifies this`row, this`remote, this`job, this`history, this`crashes, store
      ensures Valid() && job.Idle? && old(history) <= history
      ensures end.NothingNew? ==> fetched == 0
      ensures crashes == old(crashes) + if end == Interrupted(Broke) then 1 else 0
      ensures end.Finished? || end.NothingNew? || end == Interrupted(Broke) || end == Interrupted(Refused)
      ensures end.Finished? ==> FullSynced(old(row), row, read, win)
      ensures end.NothingNew? ==> row == old(row) && NothingAbove(row, read)
      ensures end.Finished? || end == Interrupted(Refused) ==>
                FetchOutcome(old(history), history, FullPlan(old(row), read, win).lo, FullPlan(old(row), read, win).hi,
                             fetched, end.Finished?)
      ensures end.Interrupted? ==> if Resumable(old(row), read) then row == old(row) else IsAllNull(row)
      ensures end.Finished? || end.NothingNew? ==>
                row.Some? && row.value.bootstrapped && backfillNextUid == row.value.next
      ensures queueDelta <==> end.Finished? && row.value.latest.Some? && read.uidNext > row.value.latest.value + 1
    {
      queueDelta := false;
      FullPlanColumns(row, read, win);
      FreshOrResumable(row, read);
      var syncState := row;
      if NeedsFreshBootstrap(syncState, v, head) {
        end, fetched, backfillNextUid := BootstrapRun(v, head);
      } else {
        end, fetched, backfillNextUid, queueDelta := ResumeRun(v, head);
      }
    }

    method BootstrapRun(v: nat, head: nat) returns (end: RunEnd, fetched: nat, backfillNextUid: Option<nat>)
      requires Valid() && job == FullHead(v, head) && NeedsFreshBootstrap(row, v, head)
      modifies this`row, this`remote, this`job, this`history, this`crashes, store
      ensures Valid() && job.Idle? && old(history) <= history
      ensures crashes == old(crashes) + if end == Interrupted(Broke) then 1 else 0
      ensures if end.Finished? then row == Some(WrittenRow(BootstrapPlan(v, head, win), CLEARED))
              else (end == Interrupted(Broke) || end == Interrupted(Refused)) && row == Some(CLEARED)
      ensures end.Finished? ==> backfillNextUid == row.value.next
      ensures end != Interrupted(Broke) ==>
                FetchOutcome(old(history), history, WindowStart(head, win), head, fetched, end.Finished?)
    {
      backfillNextUid := None;
      ghost var p := BootstrapPlan(v, head, win);
      var latest, earliest, snapshot: Option<nat> := None, None, None;
      var rangeStart := Max(1, head - win + 1);
      var stopped;
      stopped, fetched := ClearAndIngest(p, rangeStart, head, v);
      if stopped.Some? { return Interrupted(stopped.value), fetched, None; }
      ghost var ingested := history;
      if head > 0 {
        latest, earliest, snapshot := Some(head), Some(rangeStart), Some(head);
        backfillNextUid := if rangeStart > 1 then Some(rangeStart - 1) else None;
      }
      WriteRow(p, SyncState(Some(v), latest, earliest, snapshot, backfillNextUid, true));
      OutcomeGrows(old(history), old(history), ingested, history, rangeStart, head, fetched, true);
      end := Finished;
    }

    /** The cursors are nulled, and then the newest window is ingested, unless the mailbox is empty. */
    method ClearAndIngest(ghost p: Plan, rangeStart: nat, head: nat, v: nat)
      returns (stopped: Option<Cause>, fetched: nat)
      requires Valid() && job == FullHead(v, head) && NeedsFreshBootstrap(row, v, head)
      requires p == BootstrapPlan(v, head, win) && rangeStart == WindowStart(head, win)
      modifies this`row, this`remote, this`job, this`history, this`crashes, store
      ensures Valid() && old(history) <= history && row == Some(CLEARED)
      ensures crashes == old(crashes) + if stopped == Some(Broke) then 1 else 0
      ensures stopped.None? ==> job.Ingesting? && job == Ingesting(p, job.batch, |job.batch|, job.bound)
      ensures stopped.Some? ==> job.Idle? && stopped.value != NoState
      ensures stopped != Some(Broke) ==> FetchOutcome(old(history), history, rangeStart, head, fetched, stopped.None?)
    {
      ghost var before := Now();
      row := Some(CLEARED);
      job := if head == 0 then Ingesting(p, [], 0, 0) else Fetching(p);
      assert StartBootstrap(before, Now(), win);
      Record();
      ghost var from := history;
      stopped, fetched := None, 0;
      if head > 0 {
        stopped, fetched := IngestWindow(p, rangeStart, head, v, false);
        if stopped != Some(Broke) {
          OutcomeGrows(old(history), from, history, history, rangeStart, head, fetched, stopped.None?);
        }
      }
    }

    method ResumeRun(v: nat, head: nat)
      returns (end: RunEnd, fetched: nat, backfillNextUid: Option<nat>, queueDelta: bool)
      requires Valid() && job == FullHead(v, head) && !NeedsFreshBootstrap(row, v, head)
      modifies this`row, this`remote, this`job, this`history, this`crashes, store
      ensures Valid() && job.Idle? && old(history) <= history
      ensures end.NothingNew? ==> fetched == 0
      ensures crashes == old(crashes) + if end == Interrupted(Broke) then 1 else 0
      ensures end.Finished? || end.NothingNew? || end == Interrupted(Broke) || end == Interrupted(Refused)
      ensures row == if end.Finished?
                then Some(WrittenRow(HeadPlan(Resume, old(row).value, v, head, win), old(row).value)) else old(row)
      ensures !end.Interrupted? ==> backfillNextUid == row.value.next
      ensures end.NothingNew? ==> head < HeadPlan(Resume, old(row).value, v, head, win).lo
      ensures end.Finished? ==> HeadPlan(Resume, old(row).value, v, head, win).lo <= head
      ensures end.Finished? || end == Interrupted(Refused) ==>
                FetchOutcome(old(history), history, HeadPlan(Resume, old(row).value, v, head, win).lo,
                             HeadPlan(Resume, old(row).value, v, head, win).hi,
                             fetched, end.Finished?)
      ensures queueDelta <==> end.Finished? && head > row.value.latest.value
    {
      fetched, backfillNextUid, queueDelta := 0, None, false;
      var syncState := row.value;
      var latestUidCursor, earliestUidCursor := syncState.latest, syncState.earliest;
      var startUid := OrElse(latestUidCursor, 0) + 1;
      if head < startUid {
        Abandon();
        return NothingNew, 0, syncState.next, false;
      }
      var rangeEnd := Min(head, startUid + win - 1);
      ghost var p := HeadPlan(Resume, syncState, v, head, win);
      ghost var before := Now();
      job := Fetching(p);
      assert StartResume(before, Now(), win);
      var stopped;
      stopped, fetched := StartAndIngest(before, p, startUid, rangeEnd, v, false);
      if stopped.Some? { return Interrupted(stopped.value), fetched, None, false; }
      ghost var ingested := history;
      WriteRow(p, syncState.(validity := Some(v), latest := Some(rangeEnd), earliest := earliestUidCursor));
      OutcomeGrows(old(history), old(history), ingested, history, startUid, rangeEnd, fetched, true);
      return Finished, fetched, syncState.next, head > rangeEnd;
    }

    /** Records the start of a window just planned, and ingests it. */
    method StartAndIngest(ghost before: World, ghost p: Plan, lo: nat, hi: nat, v: nat, descending: bool)
      returns (stopped: Option<Cause>, fetched: nat)
      requires store.Valid() && IsRun(history, win) && history[|history| - 1] == before && Next(before, Now(), win)
      requires job == Fetching(p) && p.lo == lo && p.hi == hi && p.v == v
      requires descending ==> lo == WindowStart(hi, win)
      modifies this`remote, this`job, this`history, this`crashes, store
      ensures Valid() && old(history) <= history
      ensures crashes == old(crashes) + if stopped == Some(Broke) then 1 else 0
      ensures stopped.None? ==> job.Ingesting? && job == Ingesting(p, job.batch, |job.batch|, job.bound)
      ensures stopped.Some? ==> job.Idle? && stopped.value != NoState
      ensures stopped != Some(Broke) ==> FetchOutcome(old(history), history, lo, hi, fetched, stopped.None?)
    {
      Record();
      ghost var from := history;
      stopped, fetched := IngestWindow(p, lo, hi, v, descending);
      if stopped != Some(Broke) {
        OutcomeGrows(old(history), from, history, history, lo, hi, fetched, stopped.None?);
      }
    }

    method RunDeltaSync() returns (end: RunEnd, fetched: nat, queuedMore: bool, ghost read: Mailbox)
      requires Valid() && job.Idle?
      modifies this`row, this`remote, this`job, this`history, this`crashes, store
      ensures Valid() && job.Idle? && old(history) <= history
      ensures end.Skipped? || end.NothingNew? || end.ResyncRequired? ==> fetched == 0
      ensures crashes == old(crashes) + if end == Interrupted(Broke) then 1 else 0
      ensures (end.Skipped? <==> !enabled) && (end == Interrupted(NoState) <==> enabled && old(row).None?)
      ensures !end.Finished? ==> row == old(row)
      ensures !end.Skipped? && end != Interrupted(NoState) && end != Interrupted(Broke) ==>
                && old(row).Some? && PassedThrough(old(history), history, read)
                && var st := old(row).value;
                   && (end.ResyncRequired? <==> st.validity.Some? && st.validity.value != read.validity)
                   && (end.NothingNew? <==> !end.ResyncRequired? && read.uidNext <= AfterLatest(st))
      ensures end.Finished? || end == Interrupted(Refused) ==>
                var p := HeadPlan(Delta, old(row).value, read.validity, HeadUid(read), win);
                FetchOutcome(old(history), history, p.lo, p.hi, fetched, end.Finished?)
      ensures end.Finished? ==>
                && row.Some? && HeadMoved(old(row).value, row.value, read, win)
                && (queuedMore <==> read.uidNext > row.value.latest.value + 1)
    {
      fetched, queuedMore, read := 0, false, remote;
      if !enabled {
        return Skipped, 0, false, remote;
      }
      if row.None? {
        return Interrupted(NoState), 0, false, remote;
      }
      var crashed := Interfere();
      if crashed { return Interrupted(Broke), 0, false, remote; }
      read := remote;
      ghost var headRead := history;
      assert history[|headRead| - 1].remote == read;
      end, fetched, queuedMore := DeltaFrom(row.value);
      if end.Finished? || end == Interrupted(Refused) {
        ghost var p := HeadPlan(Delta, old(row).value, read.validity, HeadUid(read), win);
        OutcomeGrows(old(history), headRead, history, history, p.lo, p.hi, fetched, end.Finished?);
      }
      assert history[|headRead| - 1].remote == read;
    }

    /** The run from the moment it has read the epoch and the head of the mailbox. */
    method DeltaFrom(syncState: SyncState) returns (end: RunEnd, fetched: nat, queuedMore: bool)
      requires Valid() && job.Idle? && row == Some(syncState)
      modifies this`row, this`remote, this`job, this`history, this`crashes, store
      ensures Valid() && job.Idle? && old(history) <= history
      ensures end.NothingNew? || end.ResyncRequired? ==> fetched == 0
      ensures crashes == old(crashes) + if end == Interrupted(Broke) then 1 else 0
      ensures !end.Skipped? && end != Interrupted(NoState)
      ensures !end.Finished? ==> row == old(row)
      ensures end != Interrupted(Broke) ==>
                && (end.ResyncRequired?
                    <==> syncState.validity.Some? && syncState.validity.value != old(remote).validity)
                && (end.NothingNew? <==> !end.ResyncRequired? && old(remote).uidNext <= AfterLatest(syncState))
      ensures end.Finished? || end == Interrupted(Refused) ==>
                var p := HeadPlan(Delta, syncState, old(remote).validity, HeadUid(old(remote)), win);
                FetchOutcome(old(history), history, p.lo, p.hi, fetched, end.Finished?)
      ensures end.Finished? ==>
                && row.Some? && HeadMoved(syncState, row.value, old(remote), win)
                && (queuedMore <==> old(remote).uidNext > row.value.latest.value + 1)
    {
      var currentUidvalidity := remote.validity;
      if syncState.validity.Some? && currentUidvalidity != syncState.validity.value {
        return ResyncRequired, 0, false;
      }
      var currentHeadUid := HeadUid(remote);
      var startUid := OrElse(syncState.latest, 0) + 1;
      if currentHeadUid < startUid {
        return NothingNew, 0, false;
      }
      var rangeEnd := Min(currentHeadUid, startUid + win - 1);
      ghost var p := HeadPlan(Delta, syncState, currentUidvalidity, currentHeadUid, win);
      end, fetched := DeltaWindow(p, startUid, rangeEnd, currentUidvalidity, syncState, currentHeadUid);
      queuedMore := end.Finished? && currentHeadUid > rangeEnd;
    }

    /** The bounded head window of a delta run: ingest it, then move the head cursor. */
    method DeltaWindow(ghost p: Plan, startUid: nat, rangeEnd: nat, v: nat, syncState: SyncState, ghost head: nat)
      returns (end: RunEnd, fetched: nat)
      requires Valid() && job.Idle? && row == Some(syncState) && !EpochChanged(syncState, remote)
      requires v == remote.validity
      requires head == HeadUid(remote) && p == HeadPlan(Delta, syncState, v, head, win) && p.lo == startUid
      requires p.hi == rangeEnd && startUid <= head
      modifies this`row, this`remote, this`job, this`history, this`crashes, store
      ensures Valid() && job.Idle? && old(history) <= history
      ensures crashes == old(crashes) + if end == Interrupted(Broke) then 1 else 0
      ensures end.Finished? || end == Interrupted(Refused) || end == Interrupted(Broke)
      ensures row == Some(if end.Finished? then WrittenRow(p, syncState) else syncState)
      ensures end.Finished? ==> HeadMoved(syncState, row.value, old(remote), win)
      ensures end != Interrupted(Broke) ==>
                FetchOutcome(old(history), history, startUid, rangeEnd, fetched, end.Finished?)
    {
      DeltaPlanColumns(syncState, remote, win);
      ghost var before := Now();
      job := Fetching(p);
      assert StartDelta(before, Now(), win);
      var stopped;
      stopped, fetched := StartAndIngest(before, p, startUid, rangeEnd, v, false);
      if stopped.Some? { return Interrupted(stopped.value), fetched; }
      ghost var ingested := history;
      WriteRow(p, syncState.(validity := Some(v), latest := Some(rangeEnd),
                             earliest := Some(OrElse(syncState.earliest, startUid))));
      OutcomeGrows(old(history), old(history), ingested, history, startUid, rangeEnd, fetched, true);
      end := Finished;
    }

    method RunBackfillSync() returns (end: RunEnd, fetched: nat, backfillNextUid: Option<nat>, ghost read: Mailbox)
      requires Valid() && job.Idle?
      modifies this`row, this`remote, this`job, this`history, this`crashes, store
      ensures Valid() && job.Idle? && old(history) <= history
      ensures end.Skipped? || end.NothingNew? || end.ResyncRequired? ==> fetched == 0
      ensures crashes == old(crashes) + if end == Interrupted(Broke) then 1 else 0
      ensures (end.Skipped? <==> !enabled) && (end == Interrupted(NoState) <==> enabled && old(row).None?)
      ensures end.NothingNew? <==> enabled && old(row).Some? && old(row).value.next.None?
      ensures !end.Finished? ==> row == old(row)
      ensures end.Finished? || end.ResyncRequired? || end == Interrupted(Refused) ==>
                && old(row).Some? && old(row).value.next.Some? && PassedThrough(old(history), history, read)
                && var validity := old(row).value.validity;
                   (end.ResyncRequired? <==> validity.Some? && validity.value != read.validity)
      ensures end.Finished? || end == Interrupted(Refused) ==>
                FetchOutcome(old(history), history, WindowStart(old(row).value.next.value, win),
                             old(row).value.next.value, fetched, end.Finished?)
      ensures end.Finished? ==>
                row.Some? && LowMoved(old(row).value, row.value, win)
      ensures !end.Skipped? && !end.Interrupted? ==> row.Some? && backfillNextUid == row.value.next
      ensures end.Skipped? ==> backfillNextUid.None?
    {
      fetched, backfillNextUid, read := 0, None, remote;
      if !enabled {
        return Skipped, 0, None, remote;
      }
      if row.None? {
        return Interrupted(NoState), 0, None, remote;
      }
      if row.value.next.None? {
        return NothingNew, 0, None, remote;
      }
      CoveredNow();
      var crashed := Interfere();
      if crashed { return Interrupted(Broke), 0, None, remote; }
      read := remote;
      ghost var epochRead := history;
      assert history[|epochRead| - 1].remote == read;
      end, fetched, backfillNextUid := BackfillFrom(row.value);
      if end.Finished? || end == Interrupted(Refused) {
        OutcomeGrows(old(history), epochRead, history, history, WindowStart(old(row).value.next.value, win),
                     old(row).value.next.value, fetched, end.Finished?);
      }
      assert history[|epochRead| - 1].remote == read;
    }

    /** The run from the moment it has read the epoch of the mailbox. */
    method BackfillFrom(syncState: SyncState) returns (end: RunEnd, fetched: nat, backfillNextUid: Option<nat>)
      requires Valid() && job.Idle? && row == Some(syncState) && syncState.next.Some? && CursorShape(syncState)
      modifies this`row, this`remote, this`job, this`history, this`crashes, store
      ensures Valid() && job.Idle? && old(history) <= history
      ensures end.ResyncRequired? ==> fetched == 0
      ensures crashes == old(crashes) + if end == Interrupted(Broke) then 1 else 0
      ensures !end.Skipped? && !end.NothingNew? && end != Interrupted(NoState)
      ensures !end.Finished? ==> row == old(row)
      ensures end != Interrupted(Broke) ==>
                (end.ResyncRequired?
                 <==> syncState.validity.Some? && syncState.validity.value != old(remote).validity)
      ensures end.Finished? || end == Interrupted(Refused) ==>
                FetchOutcome(old(history), history, WindowStart(syncState.next.value, win), syncState.next.value,
                             fetched,
                             end.Finished?)
      ensures end.Finished? ==> row.Some? && LowMoved(syncState, row.value, win)
      ensures !end.Interrupted? ==> backfillNextUid == row.value.next
    {
      var rangeEnd := syncState.next.value;
      var rangeStart := Max(1, rangeEnd - win + 1);
      var currentUidvalidity := remote.validity;
      if syncState.validity.Some? && currentUidvalidity != syncState.validity.value {
        return ResyncRequired, 0, syncState.next;
      }
      ghost var p := BackfillPlan(currentUidvalidity, rangeEnd, win);
      end, fetched := BackfillWindow(p, rangeStart, rangeEnd, currentUidvalidity, syncState);
      backfillNextUid := if end.Finished? then row.value.next else None;
    }

    /** One window down: ingest it, then move the low cursor. */
    method BackfillWindow(ghost p: Plan, rangeStart: nat, rangeEnd: nat, v: nat, syncState: SyncState)
      returns (end: RunEnd, fetched: nat)
      requires Valid() && job.Idle? && row == Some(syncState) && !EpochChanged(syncState, remote)
      requires v == remote.validity
      requires syncState.next == Some(rangeEnd) && rangeStart == WindowStart(rangeEnd, win)
      requires p == BackfillPlan(v, rangeEnd, win)
      modifies this`row, this`remote, this`job, this`history, this`crashes, store
      ensures Valid() && job.Idle? && old(history) <= history
      ensures crashes == old(crashes) + if end == Interrupted(Broke) then 1 else 0
      ensures end.Finished? || end == Interrupted(Refused) || end == Interrupted(Broke)
      ensures row == Some(if end.Finished? then WrittenRow(p, syncState) else syncState)
      ensures end != Interrupted(Broke) ==>
                FetchOutcome(old(history), history, rangeStart, rangeEnd, fetched, end.Finished?)
    {
      ghost var before := Now();
      job := Fetching(p);
      assert StartBackfill(before, Now(), win);
      var stopped;
      stopped, fetched := StartAndIngest(before, p, rangeStart, rangeEnd, v, true);
      if stopped.Some? { return Interrupted(stopped.value), fetched; }
      ghost var ingested := history;
      var next := if rangeStart > 1 then Some(rangeStart - 1) else None;
      WriteRow(p, syncState.(validity := Some(v), earliest := Some(rangeStart), next := next));
      OutcomeGrows(old(history), old(history), ingested, history, rangeStart, rangeEnd, fetched, true);
      end := Finished;
    }

    /** `read` is the mailbox whose epoch was compared, `seen` the one the remote ids were fetched from. */
    method RunReconcile() returns (end: RunEnd, tombstoned: nat, ghost read: Mailbox, ghost seen: Mailbox)
      requires Valid() && job.Idle?
      modifies this`remote, this`job, this`history, this`crashes, store`sources
      ensures Valid() && job.Idle? && old(history) <= history && row == old(row)
      ensures end.Skipped? || end.ResyncRequired? ==> tombstoned == 0
      ensures crashes == old(crashes) + if end == Interrupted(Broke) then 1 else 0
      ensures end.Skipped? <==> !(enabled && row.Some? && row.value.validity.Some? && row.value.earliest.Some?
                                  && row.value.latest.Some?)
      ensures end.Interrupted? ==> end.cause == Broke
      ensures end.Skipped? || end.ResyncRequired? ==> store.sources == old(store.sources)
      ensures !end.NothingNew?
      ensures end.ResyncRequired? || end.Finished? ==>
                && PassedThrough(old(history), history, read)
                && (end.Finished? <==> row.value.validity == Some(read.validity))
      ensures end.Finished? ==>
                && FetchedAt(old(history), history, World(seen, row, old(store.sources), Idle))
                && var (v, e, l) := (row.value.validity.value, row.value.earliest.value, row.value.latest.value);
                   && OnlyGivenUp(old(store.sources), store.sources, v, e, l, seen)
                   && tombstoned == |Lost(old(store.sources), store.sources)|
                   && (seen.validity == v ==> MirrorsWindow(store.sources, seen, e, l))
    {
      tombstoned, read, seen := 0, remote, remote;
      if !enabled || !HasInterval(row) {
        return Skipped, 0, remote, remote;
      }
      var v, e, l := row.value.validity.value, row.value.earliest.value, row.value.latest.value;
      var crashed := Interfere();
      if crashed { return Interrupted(Broke), 0, remote, remote; }
      read := remote;
      ghost var from := history;
      assert history[|from| - 1].remote == read;
      if remote.validity != v {
        return ResyncRequired, 0, remote, remote;
      }
      var complete;
      complete, tombstoned, seen := ReconcileWindow(v, e, l);
      if !complete { return Interrupted(Broke), tombstoned, read, seen; }
      FetchedAtLater(old(history), from, history, World(seen, row, old(store.sources), Idle));
      assert history[|from| - 1].remote == read;
      end := Finished;
    }

    /** Marks the start of the comparison, and makes it after an await. */
    method ReconcileWindow(v: nat, e: nat, l: nat) returns (complete: bool, tombstoned: nat, ghost seen: Mailbox)
      requires Valid() && job.Idle? && remote.validity == v
      requires row.Some? && row.value.validity == Some(v) && row.value.earliest == Some(e)
      requires row.value.latest == Some(l)
      modifies this`remote, this`job, this`history, this`crashes, store`sources
      ensures Valid() && job.Idle? && old(history) <= history
      ensures crashes == old(crashes) + if complete then 0 else 1
      ensures complete ==>
                && FetchedAt(old(history), history, World(seen, row, old(store.sources), Idle))
                && OnlyGivenUp(old(store.sources), store.sources, v, e, l, seen)
                && tombstoned == |Lost(old(store.sources), store.sources)|
                && (seen.validity == v ==> MirrorsWindow(store.sources, seen, e, l))
    {
      job := ReconcileHead(v, e, l);
      Record();
      seen := remote;
      var crashed := Interfere();
      if crashed { return false, 0, remote; }
      ghost var from := history;
      complete, tombstoned, seen := CompareWindow(v, e, l);
      if complete {
        FetchedAtLater(old(history), from, history, World(seen, row, old(store.sources), Idle));
        if seen.validity == v {
          FetchedWindowMatches(old(history), World(seen, row, old(store.sources), Idle), e, l);
        }
      }
    }

    /** Connecting an account inserts an all-null cursor row unless there is one. */
    method SeedCursorRow()
      requires Valid()
      modifies this`row, this`history
      ensures Valid() && old(history) <= history
      ensures row == if old(row).None? then Some(CLEARED) else old(row)
      ensures old(row).None? ==> IsAllNull(row)
    {
      if row.None? {
        ghost var before := Now();
        row := Some(CLEARED);
        assert SeedRow(before, Now());
        Record();
      }
    }

    /** What was read at a recorded moment satisfies the machine's invariant. */
    lemma FetchedWindowMatches(before: seq<World>, w: World, e: nat, l: nat)
      requires Valid() && before <= history && FetchedAt(before, history, w)
      requires w.row.Some? && w.row.value.validity == Some(w.remote.validity)
      requires w.row.value.earliest == Some(e) && w.row.value.latest == Some(l)
      ensures MirrorsWindow(Reconciled(w.sources, w.remote.validity, e, l, RemoteIds(w.remote, e, l)), w.remote, e, l)
    {
      var k :| |before| <= k < |history| && history[k].(job := w.job) == w;
      RunKeepsInv(history, win, k);
      ReconcileMatchesMailbox(history[k], win, e, l);
    }

    /** An await, then one source of the examined list, on top of those `done` before. */
    method CompareNext(v: nat, e: nat, l: nat, remoteIds: set<string>, todo: set<string>, r: string, before: nat,
                       ghost start: map<string, Source>, ghost done: set<string>)
      returns (crashed: bool, tombstoned: nat)
      requires Valid() && job == Comparing(v, e, l, remoteIds, todo) && r in todo && r in start && r !in done
      requires ComparedSoFar(start, store.sources, done, remoteIds, before)
      modifies this`remote, this`job, this`history, this`crashes, store`sources
      ensures Valid() && old(history) <= history
      ensures crashes == old(crashes) + if crashed then 1 else 0
      ensures if crashed then job.Idle? else job == Comparing(v, e, l, remoteIds, todo - {r})
      ensures !crashed ==> ComparedSoFar(start, store.sources, done + {r}, remoteIds, tombstoned)
    {
      tombstoned := before;
      crashed := Interfere();
      if !crashed {
        ComparedStep(start, store.sources, done, remoteIds, before, r);
        var gone := CompareOneSource(v, e, l, remoteIds, todo, r);
        tombstoned := before + if gone then 1 else 0;
      }
    }

    method CompareOneSource(v: nat, e: nat, l: nat, remoteIds: set<string>, todo: set<string>, r: string)
      returns (gone: bool)
      requires Valid() && job == Comparing(v, e, l, remoteIds, todo) && r in todo && r in store.sources
      modifies this`job, this`history, store`sources
      ensures Valid() && old(history) <= history && job == Comparing(v, e, l, remoteIds, todo - {r})
      ensures gone <==> r !in remoteIds
      ensures store.sources == if gone then Tombstone(old(store.sources), r) else old(store.sources)
    {
      ghost var before := Now();
      gone := r != "" && r !in remoteIds;
      assert ValidRemoteId(r);
      if gone {
        store.TombstoneSource(r);
      }
      job := Comparing(v, e, l, remoteIds, todo - {r});
      assert ComparedWith(before, Now(), r);
      Record();
    }

    /** The loop over the examined sources. */
    method CompareAll(v: nat, e: nat, l: nat, remoteIds: set<string>, localSources: set<string>)
      returns (complete: bool, tombstoned: nat)
      requires Valid() && job == Comparing(v, e, l, remoteIds, localSources) && localSources <= store.sources.Keys
      modifies this`remote, this`job, this`history, this`crashes, store`sources
      ensures Valid() && job.Idle? && old(history) <= history
      ensures crashes == old(crashes) + if complete then 0 else 1
      ensures complete ==>
                store.sources == Pruned(old(store.sources), localSources - remoteIds)
                && tombstoned == |localSources - remoteIds|
    {
      ghost var start := store.sources;
      tombstoned := 0;
      var todo := localSources;
      ghost var done: set<string> := {};
      assert Splits(done, todo, start, localSources);
      while todo != {}
        invariant Valid() && job == Comparing(v, e, l, remoteIds, todo) && old(history) <= history
        invariant crashes == old(crashes)
        invariant Splits(done, todo, start, localSources)
        invariant ComparedSoFar(start, store.sources, done, remoteIds, tombstoned)
        decreases todo
      {
        var r :| r in todo;
        MoveOver(done, todo, start, localSources, r);
        var crashed;
        crashed, tombstoned := CompareNext(v, e, l, remoteIds, todo, r, tombstoned, start, done);
        if crashed { return false, tombstoned; }
        todo, done := todo - {r}, done + {r};
      }
      assert done == localSources;
      Abandon();
      return true, tombstoned;
    }

    /** Reads the remote ids of the window, then the rows to examine. */
    method FetchRemoteIds(v: nat, e: nat, l: nat)
      returns (remoteIds: set<string>, localSources: set<string>, ghost seen: Mailbox)
      requires Valid() && job == ReconcileHead(v, e, l)
      modifies this`job, this`history
      ensures Valid() && job == Comparing(v, e, l, remoteIds, localSources) && old(history) <= history
      ensures remoteIds == RemoteIds(seen, e, l) && localSources == LocalSources(store.sources, v, e, l)
      ensures FetchedAt(old(history), history, World(seen, row, store.sources, Idle))
    {
      seen := remote;
      remoteIds := RemoteIds(remote, e, l);
      localSources := LocalSources(store.sources, v, e, l);
      job := Comparing(v, e, l, remoteIds, localSources);
      Record();
      assert history[|history| - 1].(job := Idle) == World(seen, row, store.sources, Idle);
    }

    method CompareWindow(v: nat, e: nat, l: nat) returns (complete: bool, tombstoned: nat, ghost seen: Mailbox)
      requires Valid() && job == ReconcileHead(v, e, l)
      modifies this`remote, this`job, this`history, this`crashes, store`sources
      ensures Valid() && job.Idle? && old(history) <= history
      ensures crashes == old(crashes) + if complete then 0 else 1
      ensures complete ==>
                && FetchedAt(old(history), history, World(seen, row, old(store.sources), Idle))
                && store.sources == Reconciled(old(store.sources), v, e, l, RemoteIds(seen, e, l))
                && OnlyGivenUp(old(store.sources), store.sources, v, e, l, seen)
                && tombstoned == |Lost(old(store.sources), store.sources)|
    {
      var remoteIds, localSources;
      remoteIds, localSources, seen := FetchRemoteIds(v, e, l);
      ghost var recorded := history;
      complete, tombstoned := CompareAll(v, e, l, remoteIds, localSources);
      PrunedIsReconciled(old(store.sources), v, e, l, seen);
    }

    /** Re-parsing a stored message from its raw file, outside any sync run. */
    method Reextract(r: string, parsed: Option<Option<int>>, rawSha: string) returns (recovered: bool)
      requires Valid() && r in store.sources
      modifies this`history, store
      ensures Valid() && old(history) <= history
      ensures store.sources == if recovered then old(store.sources)[r := old(store.sources)[r].(sha := rawSha)]
                else old(store.sources)
    {
      recovered := store.ReextractStoredMessage(r, parsed, rawSha);
      if recovered {
        Record();
      }
    }

    /** Whatever sequence of runs, outside events and crashes led here, the mirror covers what it claims. */
    lemma CoveredNow()
      requires Valid()
      ensures Covered(Now())
      ensures row.Some? ==> CursorShape(row.value)
    {
      RunKeepsInv(history, win, |history| - 1);
    }
  }
}
