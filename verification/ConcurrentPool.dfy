/**
 * `runConcurrent` of lib/worker.ts: loops that share one index, as a state machine over the stretches each loop runs
 * between two awaits. Items are JavaScript values, so one may be falsy and ends the loop that draws it.
 */
module ConcurrentPool {
  import opened Common

  /** Drawing, in the worker, in the progress callback, ended, or ended by a failing callback. */
  datatype Loop = Ready | Working(item: nat) | Reporting(item: nat) | Done | Broken

  datatype Report = Report(item: nat, failed: bool)

  /** `given` lists the indexes handed to the worker and `reports` the progress calls, both in order. */
  datatype Pool = Pool(index: nat, loops: seq<Loop>, given: seq<nat>, reports: seq<Report>, successCount: nat,
                       errorCount: nat)

  /** Which items are truthy. */
  type Items = seq<bool>

  predicate IsItem(items: Items, i: nat) { i < |items| && items[i] }

  /** As many loops as are allowed, but no more than there are items, and one when there are none. */
  function LoopCount(concurrency: nat, items: Items): (loops: nat)
    ensures concurrency <= |items| ==> loops == concurrency
    ensures concurrency > |items| > 0 ==> loops == |items|
    ensures concurrency > |items| == 0 ==> loops == 1
  {
    Min(concurrency, Max(|items|, 1))
  }

  function Start(concurrency: nat, items: Items): Pool {
    Pool(0, seq(LoopCount(concurrency, items), _ => Ready), [], [], 0, 0)
  }

  // ---------- Steps ----------

  /** Draw the next index: a truthy item goes to the worker, anything else ends the loop. */
  ghost predicate Draw(items: Items, p: Pool, p': Pool, l: nat) {
    && l < |p.loops| && p.loops[l].Ready?
    && p' == (if IsItem(items, p.index)
              then p.(index := p.index + 1, loops := p.loops[l := Working(p.index)], given := p.given + [p.index])
              else p.(index := p.index + 1, loops := p.loops[l := Done]))
  }

  /** The worker settles; the callback counts the outcome before it awaits anything. */
  ghost predicate Settle(p: Pool, p': Pool, l: nat, failed: bool) {
    && l < |p.loops| && p.loops[l].Working?
    && p' == p.(loops := p.loops[l := Reporting(p.loops[l].item)],
                reports := p.reports + [Report(p.loops[l].item, failed)],
                successCount := p.successCount + if failed then 0 else 1,
                errorCount := p.errorCount + if failed then 1 else 0)
  }

  /** The callback ends, well or with an error that ends its loop. */
  ghost predicate Continue(p: Pool, p': Pool, l: nat) {
    && l < |p.loops| && p.loops[l].Reporting?
    && (p' == p.(loops := p.loops[l := Ready]) || p' == p.(loops := p.loops[l := Broken]))
  }

  ghost predicate Next(items: Items, p: Pool, p': Pool) {
    exists l: nat :: Draw(items, p, p', l) || Settle(p, p', l, false) || Settle(p, p', l, true) || Continue(p, p', l)
  }

  ghost predicate IsRun(concurrency: nat, items: Items, run: seq<Pool>) {
    && |run| > 0 && run[0] == Start(concurrency, items)
    && forall i :: 0 <= i < |run| - 1 ==> Next(items, run[i], run[i + 1])
  }

  // ---------- The invariant ----------

  /** The truthy indexes below `n`, in order. */
  function Drawn(items: Items, n: nat): seq<nat> {
    if n == 0 then [] else Drawn(items, n - 1) + if IsItem(items, n - 1) then [n - 1] else []
  }

  /** How many draws below `n` hit no item. */
  function Misses(items: Items, n: nat): nat {
    if n == 0 then 0 else Misses(items, n - 1) + if IsItem(items, n - 1) then 0 else 1
  }

  predicate IsDone(l: Loop) { l.Done? }

  predicate IsWorking(l: Loop) { l.Working? }

  function Holds(l: Loop, k: nat): nat { if l.Working? && l.item == k then 1 else 0 }

  /** How many workers have item `k` right now. */
  function InHand(loops: seq<Loop>, k: nat): nat {
    if loops == [] then 0 else InHand(loops[..|loops| - 1], k) + Holds(loops[|loops| - 1], k)
  }

  /** How many times item `k` has been reported. */
  function Reported(reports: seq<Report>, k: nat): nat {
    if reports == [] then 0
    else Reported(reports[..|reports| - 1], k) + if reports[|reports| - 1].item == k then 1 else 0
  }

  function FailedCount(reports: seq<Report>): nat {
    if reports == [] then 0 else FailedCount(reports[..|reports| - 1]) + if reports[|reports| - 1].failed then 1 else 0
  }

  /** A drawn item is in one worker or has been reported once; any other index is in none and never reported. */
  ghost predicate Accounted(items: Items, p: Pool, k: nat) {
    InHand(p.loops, k) + Reported(p.reports, k) == if k < p.index && IsItem(items, k) then 1 else 0
  }

  ghost predicate Counted(items: Items, p: Pool) {
    && p.given == Drawn(items, p.index)
    && |p.given| == WorkingCount(p.loops) + |p.reports|
    && DoneCount(p.loops) == Misses(items, p.index)
    && p.errorCount == FailedCount(p.reports)
    && p.successCount == |p.reports| - FailedCount(p.reports)
  }

  /** A draw needs a loop that has not ended, so fewer draws than loops have missed before each draw made. */
  ghost predicate DrawnInTime(items: Items, p: Pool) {
    forall k: nat :: k < p.index ==> Misses(items, k) < |p.loops|
  }

  ghost predicate Inv(items: Items, p: Pool) {
    Counted(items, p) && DrawnInTime(items, p) && forall k: nat :: Accounted(items, p, k)
  }

  lemma NextKeepsDrawnInTime(items: Items, p: Pool, p': Pool, l: nat)
    requires Counted(items, p) && DrawnInTime(items, p)
    requires Draw(items, p, p', l) || Settle(p, p', l, false) || Settle(p, p', l, true) || Continue(p, p', l)
    ensures DrawnInTime(items, p')
  {
    if Draw(items, p, p', l) {
      LoopCountsUpdate(p.loops, l, Done);
      assert DoneCount(p.loops) < |p.loops|;
    }
  }

  lemma {:induction false} InHandUpdate(loops: seq<Loop>, l: nat, x: Loop, k: nat)
    requires l < |loops|
    ensures InHand(loops[l := x], k) + Holds(loops[l], k) == InHand(loops, k) + Holds(x, k)
  {
    var n := |loops| - 1;
    var after := loops[l := x];
    if l == n {
      assert after[..n] == loops[..n];
    } else {
      InHandUpdate(loops[..n], l, x, k);
      assert after[..n] == loops[..n][l := x];
    }
  }

  lemma {:induction false} ReportedAppend(reports: seq<Report>, r: Report, k: nat)
    ensures Reported(reports + [r], k) == Reported(reports, k) + if r.item == k then 1 else 0
    ensures FailedCount(reports + [r]) == FailedCount(reports) + if r.failed then 1 else 0
  {
    assert (reports + [r])[..|reports|] == reports;
  }

  lemma {:induction false} DrawKeepsCounts(items: Items, p: Pool, p': Pool, l: nat)
    requires Counted(items, p) && Draw(items, p, p', l)
    ensures Counted(items, p')
  {
    if IsItem(items, p.index) {
      LoopCountsUpdate(p.loops, l, Working(p.index));
      assert Drawn(items, p.index + 1) == Drawn(items, p.index) + [p.index];
    } else {
      LoopCountsUpdate(p.loops, l, Done);
      assert Drawn(items, p.index + 1) == Drawn(items, p.index);
    }
  }

  function DoneCount(loops: seq<Loop>): nat { |Filter(loops, IsDone)| }

  function WorkingCount(loops: seq<Loop>): nat { |Filter(loops, IsWorking)| }

  lemma LoopCountsUpdate(loops: seq<Loop>, l: nat, x: Loop)
    requires l < |loops|
    ensures DoneCount(loops[l := x]) + (if loops[l].Done? then 1 else 0) == DoneCount(loops) + if x.Done? then 1 else 0
    ensures WorkingCount(loops[l := x]) + (if loops[l].Working? then 1 else 0)
              == WorkingCount(loops) + if x.Working? then 1 else 0
  {
    FilterUpdate(loops, l, x, IsDone);
    FilterUpdate(loops, l, x, IsWorking);
  }

  lemma {:induction false} SettleKeepsCounts(items: Items, p: Pool, p': Pool, l: nat, failed: bool)
    requires Counted(items, p) && Settle(p, p', l, failed)
    ensures Counted(items, p')
  {
    LoopCountsUpdate(p.loops, l, p'.loops[l]);
    ReportedAppend(p.reports, Report(p.loops[l].item, failed), 0);
  }

  lemma {:induction false} ContinueKeepsCounts(items: Items, p: Pool, p': Pool, l: nat)
    requires Counted(items, p) && Continue(p, p', l)
    ensures Counted(items, p')
  {
    LoopCountsUpdate(p.loops, l, p'.loops[l]);
  }

  lemma {:induction false} NextKeepsCounts(items: Items, p: Pool, p': Pool, l: nat)
    requires Counted(items, p)
    requires Draw(items, p, p', l) || Settle(p, p', l, false) || Settle(p, p', l, true) || Continue(p, p', l)
    ensures Counted(items, p')
  {
    if Draw(items, p, p', l) {
      DrawKeepsCounts(items, p, p', l);
    } else if Continue(p, p', l) {
      ContinueKeepsCounts(items, p, p', l);
    } else {
      SettleKeepsCounts(items, p, p', l, Settle(p, p', l, true));
    }
  }

  lemma {:induction false} NextKeepsAccount(items: Items, p: Pool, p': Pool, l: nat, k: nat)
    requires Accounted(items, p, k) && Accounted(items, p, p.index)
    requires Draw(items, p, p', l) || Settle(p, p', l, false) || Settle(p, p', l, true) || Continue(p, p', l)
    ensures Accounted(items, p', k)
  {
    InHandUpdate(p.loops, l, p'.loops[l], k);
    if p.loops[l].Working? {
      ReportedAppend(p.reports, Report(p.loops[l].item, Settle(p, p', l, true)), k);
    }
  }

  lemma {:induction false} StartHasNothing(n: nat, k: nat)
    ensures var loops := seq(n, _ => Ready);
            InHand(loops, k) == 0 && Filter(loops, IsDone) == [] && Filter(loops, IsWorking) == []
  {
    var loops := seq(n, _ => Ready);
    FilterNone(loops, IsDone);
    FilterNone(loops, IsWorking);
    if n > 0 {
      StartHasNothing(n - 1, k);
      assert loops[..n - 1] == seq(n - 1, _ => Ready);
    }
  }

  lemma {:induction false} RunKeepsInv(concurrency: nat, items: Items, run: seq<Pool>, i: nat)
    requires IsRun(concurrency, items, run) && i < |run|
    ensures Inv(items, run[i]) && |run[i].loops| == LoopCount(concurrency, items)
  {
    if i == 0 {
      StartIsAccounted(concurrency, items);
    } else {
      RunKeepsInv(concurrency, items, run, i - 1);
      var (p, p') := (run[i - 1], run[i]);
      var l: nat :| Draw(items, p, p', l) || Settle(p, p', l, false) || Settle(p, p', l, true) || Continue(p, p', l);
      NextKeepsCounts(items, p, p', l);
      NextKeepsDrawnInTime(items, p, p', l);
      forall k: nat ensures Accounted(items, p', k) {
        NextKeepsAccount(items, p, p', l, k);
      }
    }
  }

  lemma StartIsAccounted(concurrency: nat, items: Items)
    ensures Inv(items, Start(concurrency, items))
  {
    forall k: nat ensures Accounted(items, Start(concurrency, items), k) {
      StartHasNothing(LoopCount(concurrency, items), k);
    }
    StartHasNothing(LoopCount(concurrency, items), 0);
  }

  // ---------- What the pool promises ----------

  lemma {:induction false} DrawnIsAscending(items: Items, n: nat)
    ensures forall i, j :: 0 <= i < j < |Drawn(items, n)| ==> Drawn(items, n)[i] < Drawn(items, n)[j]
    ensures forall i: nat :: i in Drawn(items, n) <==> i < n && IsItem(items, i)
    ensures |Drawn(items, n)| + Misses(items, n) == n
  {
    if n > 0 {
      DrawnIsAscending(items, n - 1);
      var front := Drawn(items, n - 1);
      forall i | 0 <= i < |front| ensures front[i] < n - 1 {
        assert front[i] in front;
      }
    }
  }

  /** At every moment no item has been given to two workers, and every given item is in one worker or reported once. */
  lemma ExactlyOnce(concurrency: nat, items: Items, run: seq<Pool>, i: nat, k: nat)
    requires IsRun(concurrency, items, run) && i < |run|
    ensures var p := run[i];
            && (forall a, b :: 0 <= a < b < |p.given| ==> p.given[a] < p.given[b])
            && (k in p.given <==> k < p.index && IsItem(items, k))
            && InHand(p.loops, k) + Reported(p.reports, k) == (if k in p.given then 1 else 0)
  {
    RunKeepsInv(concurrency, items, run, i);
    DrawnIsAscending(items, run[i].index);
    assert Accounted(items, run[i], k);
  }

  ghost predicate AllDone(p: Pool) { forall l :: 0 <= l < |p.loops| ==> p.loops[l].Done? }

  lemma {:induction false} DoneLoopsHoldNothing(loops: seq<Loop>, k: nat)
    requires forall l :: 0 <= l < |loops| ==> loops[l].Done?
    ensures InHand(loops, k) == 0 && Filter(loops, IsDone) == loops && Filter(loops, IsWorking) == []
  {
    FilterAll(loops, IsDone);
    FilterNone(loops, IsWorking);
    if loops != [] {
      DoneLoopsHoldNothing(loops[..|loops| - 1], k);
    }
  }

  function FalsyCount(items: Items): nat { Misses(items, |items|) }

  lemma {:induction false} MissesGrow(items: Items, m: nat, n: nat)
    requires m <= n
    ensures Misses(items, m) <= Misses(items, n)
  {
    if m < n {
      MissesGrow(items, m, n - 1);
    }
  }

  /** When all loops have ended, the draws made are those before which fewer draws than loops missed. */
  lemma DonePool(items: Items, p: Pool, k: nat)
    requires Inv(items, p) && AllDone(p)
    ensures k < p.index <==> Misses(items, k) < |p.loops|
    ensures Reported(p.reports, k) == if k < p.index && IsItem(items, k) then 1 else 0
    ensures p.successCount + p.errorCount == |p.reports| == |p.given|
  {
    DoneLoopsHoldNothing(p.loops, k);
    assert Accounted(items, p, k);
    if p.index <= k {
      MissesGrow(items, p.index, k);
    }
  }

  /**
   * Exactly which items a finished pool has done: an item is reported, once, exactly when it is truthy and fewer falsy
   * items than loops come before it. The counters add up to the reports.
   */
  lemma PoolReports(concurrency: nat, items: Items, run: seq<Pool>, k: nat)
    requires IsRun(concurrency, items, run) && AllDone(run[|run| - 1])
    ensures var p := run[|run| - 1];
            && Reported(p.reports, k)
              == (if IsItem(items, k) && Misses(items, k) < LoopCount(concurrency, items) then 1 else 0)
            && p.successCount + p.errorCount == |p.reports| == |p.given|
  {
    RunKeepsInv(concurrency, items, run, |run| - 1);
    DonePool(items, run[|run| - 1], k);
  }

  /**
   * Every item, falsy ones aside, is done in every finished run exactly when no truthy one is behind that many falsy
   * ones.
   */
  lemma EveryItemDone(concurrency: nat, items: Items, run: seq<Pool>)
    requires IsRun(concurrency, items, run) && AllDone(run[|run| - 1])
    ensures (forall k: nat :: IsItem(items, k) ==> Reported(run[|run| - 1].reports, k) == 1)
       <==> forall k: nat :: IsItem(items, k) ==> Misses(items, k) < LoopCount(concurrency, items)
  {
    forall k: nat ensures IsItem(items, k) ==>
                            (Reported(run[|run| - 1].reports, k) == 1
                             <==> Misses(items, k) < LoopCount(concurrency, items))
    {
      PoolReports(concurrency, items, run, k);
    }
  }

  /**
   * With fewer falsy items than loops, whatever their places, every truthy item is done and the counters count them
   * all.
   */
  lemma PoolFinishes(concurrency: nat, items: Items, run: seq<Pool>, k: nat)
    requires IsRun(concurrency, items, run) && AllDone(run[|run| - 1])
    requires FalsyCount(items) < LoopCount(concurrency, items)
    ensures Reported(run[|run| - 1].reports, k) == if IsItem(items, k) then 1 else 0
    ensures run[|run| - 1].successCount + run[|run| - 1].errorCount == |items| - FalsyCount(items)
  {
    PoolReports(concurrency, items, run, k);
    if IsItem(items, k) {
      MissesGrow(items, k, |items|);
    }
    var p := run[|run| - 1];
    RunKeepsInv(concurrency, items, run, |run| - 1);
    DonePool(items, p, |items|);
    DrawnPastEnd(items, p.index);
  }

  lemma {:induction false} DrawnPastEnd(items: Items, n: nat)
    requires n >= |items|
    ensures Drawn(items, n) == Drawn(items, |items|) && |Drawn(items, n)| == |items| - FalsyCount(items)
  {
    DrawnIsAscending(items, |items|);
    if n > |items| {
      DrawnPastEnd(items, n - 1);
    }
  }

  /** An item behind as many falsy ones as there are loops is never given out, in any state of any run. */
  lemma StarvedItemIsNeverGiven(concurrency: nat, items: Items, run: seq<Pool>, i: nat, k: nat)
    requires IsRun(concurrency, items, run) && i < |run|
    requires Misses(items, k) >= LoopCount(concurrency, items)
    ensures k !in run[i].given
  {
    ExactlyOnce(concurrency, items, run, i, k);
    RunKeepsInv(concurrency, items, run, i);
  }

  // ---------- No deadlock and an end ----------

  /** Work still to be done: each step takes some. */
  function Left(items: Items, p: Pool): int {
    4 * Max(0, |items| - p.index) + Busy(p.loops)
  }

  function Weight(l: Loop): nat {
    match l
    case Ready => 1
    case Working(_) => 3
    case Reporting(_) => 2
    case Done => 0
    case Broken => 0
  }

  function Busy(loops: seq<Loop>): nat {
    if loops == [] then 0 else Busy(loops[..|loops| - 1]) + Weight(loops[|loops| - 1])
  }

  lemma {:induction false} BusyUpdate(loops: seq<Loop>, l: nat, x: Loop)
    requires l < |loops|
    ensures Busy(loops[l := x]) + Weight(loops[l]) == Busy(loops) + Weight(x)
  {
    var n := |loops| - 1;
    var after := loops[l := x];
    if l == n {
      assert after[..n] == loops[..n];
    } else {
      BusyUpdate(loops[..n], l, x);
      assert after[..n] == loops[..n][l := x];
    }
  }

  /** Every step brings the end nearer, so every run ends. */
  lemma EveryStepProgresses(items: Items, p: Pool, p': Pool)
    requires Next(items, p, p')
    ensures 0 <= Left(items, p') < Left(items, p)
  {
    var l: nat :| Draw(items, p, p', l) || Settle(p, p', l, false) || Settle(p, p', l, true) || Continue(p, p', l);
    BusyUpdate(p.loops, l, p'.loops[l]);
    var (x, y) := (Weight(p.loops[l]), Weight(p'.loops[l]));
    assert Draw(items, p, p', l) ==> x == 1 && y <= if IsItem(items, p.index) then 3 else 0;
    assert !Draw(items, p, p', l) ==> y < x && p'.index == p.index;
  }

  /** While a loop has not ended, some step is possible. */
  lemma NoDeadlock(items: Items, p: Pool, l: nat) returns (p': Pool)
    requires l < |p.loops| && !p.loops[l].Done? && !p.loops[l].Broken?
    ensures Next(items, p, p')
    ensures NoneBroken(p) ==> NoneBroken(p')
  {
    match p.loops[l]
    case Ready =>
      p' := if IsItem(items, p.index)
            then p.(index := p.index + 1, loops := p.loops[l := Working(p.index)], given := p.given + [p.index])
            else p.(index := p.index + 1, loops := p.loops[l := Done]);
      assert Draw(items, p, p', l);
    case Working(item) =>
      p' := p.(loops := p.loops[l := Reporting(item)], reports := p.reports + [Report(item, false)],
               successCount := p.successCount + 1);
      assert Settle(p, p', l, false);
    case Reporting(item) =>
      p' := p.(loops := p.loops[l := Ready]);
      assert Continue(p, p', l);
  }

  ghost predicate NoneBroken(p: Pool) { forall l :: 0 <= l < |p.loops| ==> !p.loops[l].Broken? }

  /** A run in which no callback fails can be finished from wherever it is. */
  lemma {:induction false} RunCanFinish(concurrency: nat, items: Items, run: seq<Pool>) returns (whole: seq<Pool>)
    requires IsRun(concurrency, items, run) && NoneBroken(run[|run| - 1])
    ensures IsRun(concurrency, items, whole) && run <= whole && AllDone(whole[|whole| - 1])
    decreases Left(items, run[|run| - 1]) + 1
  {
    var p := run[|run| - 1];
    if AllDone(p) {
      whole := run;
    } else {
      var l :| 0 <= l < |p.loops| && !p.loops[l].Done?;
      var p' := NoDeadlock(items, p, l);
      EveryStepProgresses(items, p, p');
      whole := RunCanFinish(concurrency, items, run + [p']);
    }
  }
}
