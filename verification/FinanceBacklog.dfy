/**
 * The finance backlog of lib/worker.ts: the test that says work is pending, the filter that picks it, and the job
 * that re-queues itself. Content, labels and registry stay as they are while the chain runs.
 */
module FinanceBacklog {
  import opened Common

  datatype HeadStatus = Ready | Review | BlockedParseError | Stale

  /** A `message_secondary_results` row, as far as the backlog reads it. */
  datatype Result = Result(schemaVersion: string, promptVersion: string, promptSha256: Option<string>)

  datatype Head = Head(status: HeadStatus, contentSha256: Option<string>, registrySha256: Option<string>,
                       result: Option<Result>)

  /** A message whose current root label asks for finance intelligence. */
  datatype Row = Row(contentSha256: Option<string>, parseError: bool, head: Option<Head>)

  /** What a current head must match. */
  datatype Current = Current(registrySha256: string, promptVersion: string, promptSha256: string)

  const SCHEMA := "finance-intel.v3"
  const FINANCE_BACKLOG_BATCH_SIZE := 100

  predicate SchemaIs(h: Option<Head>, version: string) {
    h.Some? && h.value.result.Some? && h.value.result.value.schemaVersion == version
  }

  predicate PromptsMatch(h: Head, c: Current) {
    h.result.Some? && h.result.value.promptVersion == c.promptVersion
      && h.result.value.promptSha256 == Some(c.promptSha256)
  }

  predicate InputsMatch(h: Head, r: Row, c: Current) {
    h.contentSha256 == r.contentSha256 && h.registrySha256 == Some(c.registrySha256)
  }

  predicate IsSecondaryHeadCurrent(h: Option<Head>, r: Row, c: Current) {
    h.Some? && InputsMatch(h.value, r, c) && PromptsMatch(h.value, c)
      && (h.value.status.Ready? || h.value.status.Review?)
  }

  /** The row test of `hasPendingFinanceBacklog`. */
  predicate IsPending(r: Row, c: Current) {
    || r.head.None?
    || r.head.value.status.Stale?
    || !SchemaIs(r.head, SCHEMA)
    || !InputsMatch(r.head.value, r, c)
    || !PromptsMatch(r.head.value, c)
  }

  /** The row test of the work filter. */
  predicate ShouldProcess(r: Row, c: Current) {
    if r.parseError then
      r.head.None? || !r.head.value.status.BlockedParseError? || !InputsMatch(r.head.value, r, c)
        || !PromptsMatch(r.head.value, c)
    else
      !SchemaIs(r.head, SCHEMA) || !IsSecondaryHeadCurrent(r.head, r, c)
  }

  /** The head was made from this content, with the registry and the prompt now in use. */
  ghost predicate IsMadeFrom(h: Head, r: Row, c: Current) {
    && h.contentSha256 == r.contentSha256 && h.registrySha256 == Some(c.registrySha256)
    && h.result.Some? && h.result.value.promptVersion == c.promptVersion
    && h.result.value.promptSha256 == Some(c.promptSha256)
  }

  /** Exactly when a row is not pending, and when the filter passes it over. */
  lemma PendingAndPicked(r: Row, c: Current)
    ensures !IsPending(r, c)
       <==> r.head.Some? && IsMadeFrom(r.head.value, r, c) && !r.head.value.status.Stale?
            && r.head.value.result.value.schemaVersion == "finance-intel.v3"
    ensures !ShouldProcess(r, c)
       <==> && r.head.Some? && IsMadeFrom(r.head.value, r, c)
            && if r.parseError then r.head.value.status == BlockedParseError
               else
                 && r.head.value.result.value.schemaVersion == "finance-intel.v3"
                 && (r.head.value.status == Ready || r.head.value.status == Review)
  {
  }

  function Selectable(c: Current): Row -> bool { (r: Row) => ShouldProcess(r, c) }

  /** An unreadable message blocked under an older result schema, everything else current. */
  predicate BlockedUnderOldSchema(r: Row, c: Current) {
    && r.parseError && r.head.Some? && r.head.value.status.BlockedParseError?
    && InputsMatch(r.head.value, r, c) && PromptsMatch(r.head.value, c) && !SchemaIs(r.head, SCHEMA)
  }

  /** A pending row is picked by the filter, with one exception: an unreadable message blocked under an older schema. */
  lemma PendingIsSelected(r: Row, c: Current)
    requires IsPending(r, c)
    ensures ShouldProcess(r, c) <==> !BlockedUnderOldSchema(r, c)
  {
  }

  /** An unreadable message that was blocked under the previous schema, otherwise current. */
  function OldBlock(contentSha256: Option<string>, c: Current): Row {
    var result := Result("finance-intel.v2", c.promptVersion, Some(c.promptSha256));
    Row(contentSha256, true, Some(Head(BlockedParseError, contentSha256, Some(c.registrySha256), Some(result))))
  }

  /** Such a message is reported pending for good: the filter never picks it, and with nothing else no job has work. */
  lemma OldBlockIsStuck(contentSha256: Option<string>, c: Current)
    ensures BlockedUnderOldSchema(OldBlock(contentSha256, c), c)
    ensures HasPending([OldBlock(contentSha256, c)], c) && SelectableCount([OldBlock(contentSha256, c)], c) == 0
  {
    var row := OldBlock(contentSha256, c);
    assert "finance-intel.v2"[15] != SCHEMA[15];
    assert IsPending([row][0], c);
    FilterNone([row], Selectable(c));
  }

  /** A picked row that nothing else calls pending has a head whose status disagrees with whether the message parses. */
  lemma SelectedIsPending(r: Row, c: Current)
    requires ShouldProcess(r, c) && !IsPending(r, c)
    ensures r.head.Some? && (r.parseError <==> !r.head.value.status.BlockedParseError?)
  {
  }

  function ResolveStatus(explicit: Option<HeadStatus>, lowConfidence: bool): HeadStatus {
    if explicit.Some? then explicit.value else if lowConfidence then Review else Ready
  }

  /** The head `persistSecondaryResult` leaves. */
  function PersistedHead(r: Row, c: Current, lowConfidence: bool, blockedModelOutput: bool): Head {
    var explicit := if r.parseError then Some(BlockedParseError) else if blockedModelOutput then Some(Review) else None;
    Head(ResolveStatus(explicit, lowConfidence), r.contentSha256, Some(c.registrySha256),
         Some(Result(SCHEMA, c.promptVersion, Some(c.promptSha256))))
  }

  /**
   * An unreadable message is blocked; a readable one is ready unless the model was unsure or its output was blocked.
   */
  lemma PersistedColumns(r: Row, c: Current, lowConfidence: bool, blockedModelOutput: bool)
    ensures var h := PersistedHead(r, c, lowConfidence, blockedModelOutput);
            && IsMadeFrom(h, r, c) && h.result.value.schemaVersion == "finance-intel.v3"
            && (h.status == BlockedParseError <==> r.parseError)
            && (h.status == Review <==> !r.parseError && (lowConfidence || blockedModelOutput))
            && !h.status.Stale?
  {
  }

  /** Whatever the model said, a classified row is current: neither pending nor picked again. */
  lemma ClassifiedIsCurrent(r: Row, c: Current, lowConfidence: bool, blockedModelOutput: bool)
    ensures var done := r.(head := Some(PersistedHead(r, c, lowConfidence, blockedModelOutput)));
              !IsPending(done, c) && !ShouldProcess(done, c)
  {
  }

  predicate HasPending(rows: seq<Row>, c: Current) { exists i :: 0 <= i < |rows| && IsPending(rows[i], c) }

  function SelectableCount(rows: seq<Row>, c: Current): nat { |Filter(rows, Selectable(c))| }

  lemma CountSplit(rows: seq<Row>, i: nat, c: Current)
    requires i < |rows|
    ensures SelectableCount(rows[..i + 1], c)
              == SelectableCount(rows[..i], c) + if ShouldProcess(rows[i], c) then 1 else 0
  {
    assert rows[..i + 1] == rows[..i] + [rows[i]];
    FilterAppend(rows[..i], rows[i], Selectable(c));
  }

  /** A row is untouched, or was picked and now has a current head. */
  ghost predicate RowDone(before: Row, after: Row, c: Current) {
    after == before || (ShouldProcess(before, c) && !IsPending(after, c) && !ShouldProcess(after, c)
                        && after == before.(head := after.head))
  }

  /** A row is up to date: neither pending nor picked. */
  predicate UpToDate(r: Row, c: Current) { !IsPending(r, c) && !ShouldProcess(r, c) }

  /** Row `j` is one of the first hundred the filter picks. */
  ghost predicate InBatch(start: seq<Row>, j: nat, c: Current)
    requires j < |start|
  {
    ShouldProcess(start[j], c) && SelectableCount(start[..j], c) < FINANCE_BACKLOG_BATCH_SIZE
  }

  /** The first `i` rows of `start` have been gone through: `taken` of them attempted, `done` of these now current. */
  ghost predicate BatchState(start: seq<Row>, rows: seq<Row>, i: nat, c: Current, taken: nat, done: nat) {
    && |rows| == |start| && i <= |start|
    && (forall j :: i <= j < |rows| ==> rows[j] == start[j])
    && (forall j :: 0 <= j < i ==> RowDone(start[j], rows[j], c))
    && taken == Min(FINANCE_BACKLOG_BATCH_SIZE, SelectableCount(start[..i], c))
    && SelectableCount(rows[..i], c) == SelectableCount(start[..i], c) - done
  }

  /** Of the rows gone through, only those of the batch have changed; if none failed, all of these are up to date. */
  ghost predicate BatchExact(start: seq<Row>, rows: seq<Row>, i: nat, c: Current, failed: bool) {
    && |rows| == |start|
    && forall j :: 0 <= j < i && j < |start| ==>
         if InBatch(start, j, c) then failed || UpToDate(rows[j], c) else rows[j] == start[j]
  }

  lemma ExactStep(start: seq<Row>, rows: seq<Row>, i: nat, c: Current, failed: bool, after: Row, fails: bool)
    requires BatchExact(start, rows, i, c, failed) && i < |rows|
    requires if InBatch(start, i, c) then fails || UpToDate(after, c) else after == start[i]
    ensures BatchExact(start, rows[i := after], i + 1, c, failed || fails)
  {
  }

  /** One row: attempted when it is picked and the batch has room. */
  lemma BatchStep(start: seq<Row>, rows: seq<Row>, i: nat, c: Current, taken: nat, done: nat, after: Row)
    requires BatchState(start, rows, i, c, taken, done) && i < |rows| && RowDone(rows[i], after, c)
    requires after != rows[i] ==> taken < FINANCE_BACKLOG_BATCH_SIZE
    ensures var picked := ShouldProcess(rows[i], c) && taken < FINANCE_BACKLOG_BATCH_SIZE;
            BatchState(start, rows[i := after], i + 1, c, if picked then taken + 1 else taken,
                       if picked && !ShouldProcess(after, c) then done + 1 else done)
  {
    var next := rows[i := after];
    assert next[..i] == rows[..i];
    CountSplit(start, i, c);
    CountSplit(next, i, c);
  }

  /** The first hundred picked rows are up to date, and no other row has changed. */
  ghost predicate BatchApplied(start: seq<Row>, rows: seq<Row>, c: Current) {
    && |rows| == |start|
    && forall j :: 0 <= j < |start| ==> if InBatch(start, j, c) then UpToDate(rows[j], c) else rows[j] == start[j]
  }

  // ---------- How many jobs the chain takes ----------

  /** The place of the last pending row among those the filter picks, 0 if there is none. */
  function LastPending(rows: seq<Row>, c: Current): nat {
    if rows == [] then 0
    else
      var n := |rows| - 1;
      if IsPending(rows[n], c) && ShouldProcess(rows[n], c) then SelectableCount(rows, c) else LastPending(rows[..n], c)
  }

  /** Some row is pending that the filter does not pick. */
  predicate HasOldBlock(rows: seq<Row>, c: Current) {
    exists i :: 0 <= i < |rows| && BlockedUnderOldSchema(rows[i], c)
  }

  function Batches(n: nat): nat { (n + FINANCE_BACKLOG_BATCH_SIZE - 1) / FINANCE_BACKLOG_BATCH_SIZE }

  lemma BatchesRoundUp(n: nat)
    ensures n <= 100 * Batches(n) < n + 100
  {
  }

  /**
   * A chain without failures goes on until it reaches the last pending row; an old block, pending for good, makes it
   * go on until a job finds nothing to pick.
   */
  function JobsNeeded(rows: seq<Row>, c: Current): nat {
    var n := SelectableCount(rows, c);
    if n == 0 then 1
    else if HasOldBlock(rows, c) then Batches(n) + 1
    else Max(1, Batches(LastPending(rows, c)))
  }

  lemma {:induction false} LastPendingIsPicked(rows: seq<Row>, c: Current)
    ensures LastPending(rows, c) <= SelectableCount(rows, c)
  {
    if rows != [] {
      var n := |rows| - 1;
      assert rows[..n + 1] == rows;
      CountSplit(rows, n, c);
      LastPendingIsPicked(rows[..n], c);
    }
  }

  lemma {:induction false} NothingPending(rows: seq<Row>, c: Current)
    ensures HasPending(rows, c) <==> HasOldBlock(rows, c) || LastPending(rows, c) > 0
  {
    if rows != [] {
      var n := |rows| - 1;
      assert rows[..n + 1] == rows;
      CountSplit(rows, n, c);
      NothingPending(rows[..n], c);
      assert HasPending(rows[..n], c) ==> HasPending(rows, c);
      assert HasOldBlock(rows[..n], c) ==> HasOldBlock(rows, c);
      if IsPending(rows[n], c) {
        PendingIsSelected(rows[n], c);
      }
    }
  }

  lemma LastPendingSplit(rows: seq<Row>, i: nat, c: Current)
    requires i < |rows|
    ensures LastPending(rows[..i + 1], c)
         == if IsPending(rows[i], c) && ShouldProcess(rows[i], c) then SelectableCount(rows[..i + 1], c)
           else LastPending(rows[..i], c)
  {
    assert rows[..i + 1][..i] == rows[..i];
  }

  /** The first `i` rows after a batch: a hundred fewer picked, and the last pending one a hundred places further up. */
  ghost predicate Shifted(start: seq<Row>, rows: seq<Row>, c: Current, i: nat)
    requires i <= |start| == |rows|
  {
    && SelectableCount(rows[..i], c) == Max(0, SelectableCount(start[..i], c) - FINANCE_BACKLOG_BATCH_SIZE)
    && LastPending(rows[..i], c) == Max(0, LastPending(start[..i], c) - FINANCE_BACKLOG_BATCH_SIZE)
  }

  lemma ShiftStep(start: seq<Row>, rows: seq<Row>, c: Current, i: nat)
    requires BatchApplied(start, rows, c) && i < |start| && Shifted(start, rows, c, i)
    ensures Shifted(start, rows, c, i + 1)
  {
    CountSplit(start, i, c);
    CountSplit(rows, i, c);
    LastPendingSplit(start, i, c);
    LastPendingSplit(rows, i, c);
    LastPendingIsPicked(start[..i], c);
    assert InBatch(start, i, c) || rows[i] == start[i];
  }

  lemma {:induction false} BatchShifts(start: seq<Row>, rows: seq<Row>, c: Current, i: nat)
    requires BatchApplied(start, rows, c) && i <= |start|
    ensures Shifted(start, rows, c, i)
  {
    if i > 0 {
      BatchShifts(start, rows, c, i - 1);
      ShiftStep(start, rows, c, i - 1);
    } else {
      assert rows[..0] == start[..0] == [];
    }
  }

  /** One completed job brings the chain one job nearer its end. */
  lemma OneJobFewer(start: seq<Row>, rows: seq<Row>, c: Current)
    requires BatchApplied(start, rows, c) && SelectableCount(start, c) > 0
    ensures JobsNeeded(start, c) == if HasPending(rows, c) then JobsNeeded(rows, c) + 1 else 1
  {
    assert start[..|start|] == start && rows[..|start|] == rows;
    BatchShifts(start, rows, c, |start|);
    NothingPending(rows, c);
    LastPendingIsPicked(rows, c);
  }

  /** When every picked row is pending, the chain takes n / 100 jobs, rounded up, and one more for an old block. */
  lemma {:induction false} AllPickedPending(rows: seq<Row>, c: Current)
    requires forall r :: r in rows && ShouldProcess(r, c) ==> IsPending(r, c)
    ensures LastPending(rows, c) == SelectableCount(rows, c)
    ensures JobsNeeded(rows, c) == Max(1, Batches(SelectableCount(rows, c)) + if HasOldBlock(rows, c) then 1 else 0)
  {
    PickedPendingIsLast(rows, c);
  }

  lemma {:induction false} PickedPendingIsLast(rows: seq<Row>, c: Current)
    requires forall r :: r in rows && ShouldProcess(r, c) ==> IsPending(r, c)
    ensures LastPending(rows, c) == SelectableCount(rows, c)
  {
    if rows != [] {
      var n := |rows| - 1;
      assert rows[..n + 1] == rows;
      CountSplit(rows, n, c);
      PickedPendingIsLast(rows[..n], c);
    }
  }

  /** A row that is picked and not pending: its message parses, its head says it does not, and all else is current. */
  function Misjudged(c: Current): Row {
    var result := Result(SCHEMA, c.promptVersion, Some(c.promptSha256));
    Row(None, false, Some(Head(BlockedParseError, None, Some(c.registrySha256), Some(result))))
  }

  /** Such rows do not keep the chain alive: a batch and one more are left to a single job, which leaves one of them. */
  lemma MisjudgedRowsEndTheChain(c: Current)
    ensures var rows := seq(101, _ => Misjudged(c)); SelectableCount(rows, c) == 101 && JobsNeeded(rows, c) == 1
  {
    var rows := seq(101, _ => Misjudged(c));
    FilterAll(rows, Selectable(c));
    MisjudgedAreNotPending(101, c);
  }

  lemma {:induction false} MisjudgedAreNotPending(n: nat, c: Current)
    ensures LastPending(seq(n, _ => Misjudged(c)), c) == 0 && !HasOldBlock(seq(n, _ => Misjudged(c)), c)
  {
    var rows := seq(n, _ => Misjudged(c));
    if n > 0 {
      MisjudgedAreNotPending(n - 1, c);
      assert rows[..n - 1] == seq(n - 1, _ => Misjudged(c));
    }
  }

  datatype JobEnd = NothingToDo | FailedItems | Completed(requeued: bool)

  class Account {
    var rows: seq<Row>

    constructor (rows: seq<Row>)
      ensures this.rows == rows
    {
      this.rows := rows;
    }

    /**
     * Classifies the first rows the filter picks, at most a batch of them. An item that throws may or may not have
     * had its head written by then; an item that does not throw has.
     */
    method ProcessBatch(c: Current) returns (successCount: nat, errorCount: nat)
      modifies this
      ensures |rows| == |old(rows)|
      ensures successCount + errorCount == Min(100, SelectableCount(old(rows), c))
      ensures SelectableCount(old(rows), c) - successCount - errorCount <= SelectableCount(rows, c)
                <= SelectableCount(old(rows), c) - successCount
      ensures forall i :: 0 <= i < |rows| ==> RowDone(old(rows)[i], rows[i], c)
      ensures errorCount == 0 ==> BatchApplied(old(rows), rows, c)
    {
      ghost var start, done := rows, 0;
      successCount, errorCount := 0, 0;
      for i := 0 to |rows|
        invariant Progress(start, i, c, successCount, errorCount, done)
      {
        successCount, errorCount, done := VisitRow(c, i, start, successCount, errorCount, done);
      }
      assert rows[..|rows|] == rows && start[..|start|] == start;
    }

    /** The first `i` rows are done: `done` of the attempted ones are up to date, at least those that did not fail. */
    ghost predicate Progress(start: seq<Row>, i: nat, c: Current, successCount: nat, errorCount: nat, done: nat)
      reads this
    {
      && BatchState(start, rows, i, c, successCount + errorCount, done)
      && BatchExact(start, rows, i, c, errorCount > 0)
      && successCount <= done <= successCount + errorCount
    }

    method VisitRow(c: Current, i: nat, ghost start: seq<Row>, successBefore: nat, errorsBefore: nat,
                    ghost doneBefore: nat)
      returns (successCount: nat, errorCount: nat, ghost done: nat)
      requires i < |rows| && Progress(start, i, c, successBefore, errorsBefore, doneBefore)
      modifies this
      ensures |rows| == |old(rows)| && Progress(start, i + 1, c, successCount, errorCount, done)
    {
      successCount, errorCount, done := successBefore, errorsBefore, doneBefore;
      var picked := ShouldProcess(rows[i], c) && successCount + errorCount < FINANCE_BACKLOG_BATCH_SIZE;
      var after, failed := rows[i], false;
      if picked {
        after, failed := ClassifyRow(rows[i], c);
      }
      BatchStep(start, rows, i, c, successCount + errorCount, done, after);
      ExactStep(start, rows, i, c, errorCount > 0, after, failed);
      if picked {
        done := if ShouldProcess(after, c) then done else done + 1;
        successCount, errorCount := if failed then successCount else successCount + 1,
          if failed then errorCount + 1 else errorCount;
      }
      rows := rows[i := after];
    }

    /** One item: the model is asked, or an unreadable message is blocked. */
    method ClassifyRow(r: Row, c: Current) returns (after: Row, failed: bool)
      requires ShouldProcess(r, c)
      ensures RowDone(r, after, c) && (!failed ==> UpToDate(after, c))
    {
      var persisted, lowConfidence, blockedModelOutput: bool := *, *, *;
      failed := *;
      after := r;
      if persisted || !failed {
        ClassifiedIsCurrent(r, c, lowConfidence, blockedModelOutput);
        after := r.(head := Some(PersistedHead(r, c, lowConfidence, blockedModelOutput)));
      }
    }

    /** One untargeted backlog job. It asks for another one only after a batch without errors. */
    method ClassifyBacklogJob(c: Current) returns (end: JobEnd, errorCount: nat)
      modifies this
      ensures end.FailedItems? <==> errorCount > 0
      ensures end.NothingToDo? <==> SelectableCount(old(rows), c) == 0
      ensures end.NothingToDo? ==> rows == old(rows)
      ensures SelectableCount(rows, c) <= SelectableCount(old(rows), c)
      ensures end.Completed? ==>
                && SelectableCount(rows, c)
                  == Max(0, SelectableCount(old(rows), c) - 100)
                && (end.requeued <==> HasPending(rows, c))
                && BatchApplied(old(rows), rows, c)
    {
      if SelectableCount(rows, c) == 0 {
        return NothingToDo, 0;
      }
      var successCount;
      successCount, errorCount := ProcessBatch(c);
      if errorCount > 0 {
        return FailedItems, errorCount;
      }
      return Completed(HasPending(rows, c)), 0;
    }

    /**
     * The chain of self-re-queued jobs ends. Unless a job fails it takes exactly the jobs it needs and leaves nothing
     * pending but unreadable messages blocked under an older schema; with `n` rows to pick it never takes more than
     * one job over n / 100 rounded up.
     */
    method DrainBacklog(c: Current) returns (jobs: nat, end: JobEnd, errorCount: nat)
      modifies this
      ensures end.FailedItems? <==> errorCount > 0
      ensures end.Completed? ==> !end.requeued
      ensures !end.FailedItems? ==> forall i :: 0 <= i < |rows| && IsPending(rows[i], c) ==>
                BlockedUnderOldSchema(rows[i], c)
      ensures !end.FailedItems? ==> jobs == JobsNeeded(old(rows), c)
      ensures 1 <= jobs <= Batches(SelectableCount(old(rows), c)) + 1
    {
      end, errorCount := OneJob(c);
      jobs := 1;
      while end.Completed? && end.requeued
        invariant end.FailedItems? <==> errorCount > 0
        invariant end.NothingToDo? ==> SelectableCount(rows, c) == 0
        invariant end.Completed? ==> (end.requeued <==> HasPending(rows, c))
        invariant jobs >= 1
        invariant if end.Completed? && end.requeued then jobs + JobsNeeded(rows, c) == JobsNeeded(old(rows), c)
                  else end.FailedItems? || jobs == JobsNeeded(old(rows), c)
        invariant jobs <= Batches(SelectableCount(old(rows), c)) + 1
        invariant end.Completed? && end.requeued ==>
                    jobs + Batches(SelectableCount(rows, c)) <= Batches(SelectableCount(old(rows), c))
        decreases SelectableCount(rows, c), if end.Completed? then 1 else 0
      {
        end, errorCount := OneJob(c);
        jobs := jobs + 1;
      }
      if end.NothingToDo? {
        LeftoversAreOldBlocks(rows, c);
      }
    }

    /** One job of the chain, and how many remain. */
    method OneJob(c: Current) returns (end: JobEnd, errorCount: nat)
      modifies this
      ensures end.FailedItems? <==> errorCount > 0
      ensures end.NothingToDo? <==> SelectableCount(old(rows), c) == 0
      ensures end.NothingToDo? ==> rows == old(rows) && JobsNeeded(rows, c) == 1
      ensures SelectableCount(rows, c) <= SelectableCount(old(rows), c)
      ensures end.Completed? ==>
                && SelectableCount(rows, c) < SelectableCount(old(rows), c)
                && Batches(SelectableCount(rows, c)) + 1 == Batches(SelectableCount(old(rows), c))
                && (end.requeued <==> HasPending(rows, c))
                && JobsNeeded(old(rows), c) == if end.requeued then JobsNeeded(rows, c) + 1 else 1
    {
      end, errorCount := ClassifyBacklogJob(c);
      if end.Completed? {
        OneJobFewer(old(rows), rows, c);
      }
    }
  }

  /**
   * When the filter picks nothing, what is still reported pending are unreadable messages blocked under an older
   * schema.
   */
  lemma LeftoversAreOldBlocks(rows: seq<Row>, c: Current)
    requires SelectableCount(rows, c) == 0
    ensures forall i :: 0 <= i < |rows| && IsPending(rows[i], c) ==> BlockedUnderOldSchema(rows[i], c)
  {
    forall i | 0 <= i < |rows| && IsPending(rows[i], c) ensures BlockedUnderOldSchema(rows[i], c) {
      PendingIsSelected(rows[i], c);
      assert rows[i] in rows;
      assert rows[i] !in Filter(rows, Selectable(c));
    }
  }
}
