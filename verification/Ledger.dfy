/** The dedupe fold of lib/finance-knowledge.ts: canonical keys, winners, and the evidence that follows them. */
module Ledger {
  import opened Common

  datatype LedgerStatus = Ready | Review | Blocked

  /** What an entry carries besides its identity; the fold moves it around whole. */
  datatype Draft = Draft(
    date: Option<string>,
    counterparty: Option<string>,
    amountMinor: Option<int>,
    currency: Option<string>,
    book: string,
    businessUsePercent: Option<int>,
    debitAccount: Option<string>,
    creditAccount: Option<string>)

  datatype Entry = Entry(id: nat, key: string, status: LedgerStatus, authority: string, draft: Draft)

  /** A `finance_ledger_entry_sources` row; `suppressed` is the evidence note naming the entry a merge dropped. */
  datatype SourceRow = SourceRow(id: nat, entry: nat, kind: string, origin: nat, suppressed: Option<nat>)

  /** A text is given when it is neither null nor empty. */
  predicate Given(o: Option<string>) { o.Some? && o.value != "" }

  function StatusForDraft(trusted: bool, notLedger: bool, d: Draft): LedgerStatus {
    if notLedger || (d.book == "mixed" && d.businessUsePercent.None?) then Blocked
    else if d.amountMinor.None? || !Given(d.date) || !Given(d.counterparty)
            || !(Given(d.debitAccount) && Given(d.creditAccount) && Given(d.currency)) then Review
    else if !trusted then Review
    else Ready
  }

  /** Blocked for good, ready when nothing is missing and the source is trusted, otherwise up for review. */
  lemma StatusByWhatIsMissing(trusted: bool, notLedger: bool, d: Draft)
    ensures StatusForDraft(trusted, notLedger, d) == Blocked
       <==> notLedger || (d.book == "mixed" && d.businessUsePercent.None?)
    ensures StatusForDraft(trusted, notLedger, d) == Ready
       <==> && !notLedger && trusted && d.amountMinor.Some? && (d.book != "mixed" || d.businessUsePercent.Some?)
            && forall o :: o in [d.date, d.counterparty, d.debitAccount, d.creditAccount, d.currency] ==>
                 o.Some? && |o.value| > 0
  {
    var texts := [d.date, d.counterparty, d.debitAccount, d.creditAccount, d.currency];
    assert texts[0] == d.date && texts[1] == d.counterparty && texts[2] == d.debitAccount;
    assert texts[3] == d.creditAccount && texts[4] == d.currency;
  }

  function SourcePriority(authority: string): nat {
    if authority == "statement" || authority == "csv" then 3
    else if authority == "ofx" || authority == "pdf" then 2
    else if authority == "email" then 1
    else 0
  }

  function ChooseWinner(left: Entry, right: Entry): Entry {
    var priority := SourcePriority(right.authority) - SourcePriority(left.authority);
    if priority > 0 then right
    else if priority < 0 then left
    else if right.status == Ready && left.status != Ready then right else left
  }

  /** Source priority first, readiness second. */
  ghost predicate Outranks(a: Entry, b: Entry) {
    || SourcePriority(a.authority) > SourcePriority(b.authority)
    || (SourcePriority(a.authority) == SourcePriority(b.authority) && a.status == Ready && b.status != Ready)
  }

  // ---------- The order of the sources, by their names ----------

  ghost predicate IsBankRow(authority: string) { authority == "statement" || authority == "csv" }

  ghost predicate IsBankExport(authority: string) { authority == "ofx" || authority == "pdf" }

  ghost predicate IsMail(authority: string) { authority == "email" }

  /** A bank row yields to bank rows only, an export to these and exports, an e-mail to all but an unknown source. */
  ghost predicate NotAbove(a: string, b: string) {
    && (IsBankRow(a) ==> IsBankRow(b))
    && (IsBankExport(a) ==> IsBankRow(b) || IsBankExport(b))
    && (IsMail(a) ==> IsBankRow(b) || IsBankExport(b) || IsMail(b))
  }

  /**
   * No candidate of the key stands above this one, and of those that stand level with it, it is the first ready one,
   * or the first one if none is ready.
   */
  ghost predicate IsChoice(seen: seq<Entry>, p: nat) {
    && p < |seen|
    && forall j :: 0 <= j < |seen| && seen[j].key == seen[p].key ==>
         && NotAbove(seen[j].authority, seen[p].authority)
         && (NotAbove(seen[p].authority, seen[j].authority) ==>
               && (seen[j].status == Ready ==> seen[p].status == Ready)
               && (j < p ==> seen[p].status == Ready && seen[j].status != Ready))
  }

  ghost predicate IsChosen(seen: seq<Entry>, e: Entry) {
    exists p :: 0 <= p < |seen| && seen[p] == e && IsChoice(seen, p)
  }

  /** Under each key stands the choice among its candidates. */
  ghost predicate ChosenByName(seen: seq<Entry>, entries: map<string, Entry>) {
    && (forall i :: 0 <= i < |seen| ==> seen[i].key in entries)
    && (forall k :: k in entries ==> entries[k].key == k && IsChosen(seen, entries[k]))
  }

  lemma PriorityByName(a: string, b: string)
    ensures SourcePriority(a) <= SourcePriority(b) <==> NotAbove(a, b)
  {
    assert IsMail(a) ==> a[0] == 'e';
    assert IsMail(b) ==> b[0] == 'e';
  }

  /** What the fold keeps is the choice by the names of the sources. */
  lemma KeptByName(seen: seq<Entry>, entries: map<string, Entry>)
    requires KeptEntries(seen, entries)
    ensures ChosenByName(seen, entries)
  {
    forall k | k in entries ensures IsChosen(seen, entries[k]) {
      var p :| 0 <= p < |seen| && seen[p] == entries[k] && FirstBest(seen, p);
      forall a, b ensures SourcePriority(a) <= SourcePriority(b) <==> NotAbove(a, b) {
        PriorityByName(a, b);
      }
      assert IsChoice(seen, p);
    }
  }

  // ---------- What the fold must have produced ----------

  /** Candidate `i` is the first of the best candidates of its key. */
  ghost predicate FirstBest(seen: seq<Entry>, i: nat) {
    && i < |seen|
    && (forall j :: 0 <= j < |seen| && seen[j].key == seen[i].key ==> !Outranks(seen[j], seen[i]))
    && (forall j :: 0 <= j < i && seen[j].key == seen[i].key ==> Outranks(seen[i], seen[j]))
  }

  ghost predicate Keeps(seen: seq<Entry>, e: Entry) {
    exists i :: 0 <= i < |seen| && seen[i] == e && FirstBest(seen, i)
  }

  ghost predicate DistinctIds(seen: seq<Entry>) {
    forall i, j :: 0 <= i < j < |seen| ==> seen[i].id != seen[j].id
  }

  /** One entry per canonical key: the first maximum of its candidates. */
  ghost predicate KeptEntries(seen: seq<Entry>, entries: map<string, Entry>) {
    && (forall i :: 0 <= i < |seen| ==> seen[i].key in entries)
    && (forall k :: k in entries ==> entries[k].key == k && Keeps(seen, entries[k]))
  }

  /** One source per candidate, pointing at the kept entry of that candidate's key. */
  ghost predicate Pointing(seen: seq<Entry>, entries: map<string, Entry>, sources: seq<SourceRow>) {
    && |sources| == |seen|
    && (forall i :: 0 <= i < |seen| ==> seen[i].key in entries && sources[i].entry == entries[seen[i].key].id)
  }

  ghost function SeenIds(seen: seq<Entry>): set<nat> { set e | e in seen :: e.id }

  ghost function KeptIds(entries: map<string, Entry>): set<nat> { set k | k in entries :: entries[k].id }

  /** The candidates that lost. */
  ghost function DroppedIds(seen: seq<Entry>, entries: map<string, Entry>): set<nat> {
    SeenIds(seen) - KeptIds(entries)
  }

  function Notes(sources: seq<SourceRow>): seq<Option<nat>> {
    seq(|sources|, i requires 0 <= i < |sources| => sources[i].suppressed)
  }

  /** The notes name exactly the ids of the set, each once. */
  ghost predicate Records(notes: seq<Option<nat>>, ids: set<nat>) {
    && (forall id :: id in ids <==> Some(id) in notes)
    && (forall i, j :: 0 <= i < j < |notes| && notes[i].Some? ==> notes[i] != notes[j])
  }

  /** Every dropped candidate is named by exactly one source, and nothing else is named. */
  ghost predicate Trail(seen: seq<Entry>, entries: map<string, Entry>, sources: seq<SourceRow>) {
    Records(Notes(sources), DroppedIds(seen, entries))
  }

  ghost predicate Folded(seen: seq<Entry>, entries: map<string, Entry>, sources: seq<SourceRow>) {
    DistinctIds(seen) && KeptEntries(seen, entries) && Pointing(seen, entries, sources) && Trail(seen, entries, sources)
  }

  function Repointed(sources: seq<SourceRow>, from: nat, to: nat): seq<SourceRow> {
    seq(|sources|, i requires 0 <= i < |sources| =>
      if sources[i].entry == from then sources[i].(entry := to) else sources[i])
  }

  // ---------- One step of the fold ----------

  lemma KeepsUnlessBeaten(seen: seq<Entry>, kept: Entry, e: Entry)
    requires Keeps(seen, kept) && (e.key == kept.key ==> !Outranks(e, kept))
    ensures Keeps(seen + [e], kept)
  {
    var i :| 0 <= i < |seen| && seen[i] == kept && FirstBest(seen, i);
    assert (seen + [e])[i] == kept && FirstBest(seen + [e], i);
  }

  lemma KeepsWinner(seen: seq<Entry>, kept: Entry, e: Entry)
    requires Keeps(seen, kept) && e.key == kept.key
    ensures Keeps(seen + [e], ChooseWinner(kept, e))
  {
    if Outranks(e, kept) {
      var i :| 0 <= i < |seen| && seen[i] == kept && FirstBest(seen, i);
      var n := |seen|;
      var longer := seen + [e];
      forall j | 0 <= j < n && seen[j].key == e.key ensures Outranks(longer[n], longer[j]) {
        assert !Outranks(seen[j], seen[i]);
      }
      assert longer[n] == e && FirstBest(longer, n);
    } else {
      KeepsUnlessBeaten(seen, kept, e);
    }
  }

  lemma AddKeepsEntries(seen: seq<Entry>, entries: map<string, Entry>, e: Entry)
    requires KeptEntries(seen, entries)
    ensures KeptEntries(seen + [e], entries[e.key := if e.key in entries then ChooseWinner(entries[e.key], e) else e])
  {
    var longer := seen + [e];
    var after := entries[e.key := if e.key in entries then ChooseWinner(entries[e.key], e) else e];
    forall k | k in after ensures after[k].key == k && Keeps(longer, after[k]) {
      if k != e.key {
        KeepsUnlessBeaten(seen, entries[k], e);
      } else if k in entries {
        KeepsWinner(seen, entries[k], e);
      } else {
        assert longer[|seen|] == e && FirstBest(longer, |seen|);
      }
    }
  }

  lemma KeptIsSeen(seen: seq<Entry>, entries: map<string, Entry>, k: string) returns (i: nat)
    requires KeptEntries(seen, entries) && k in entries
    ensures i < |seen| && seen[i] == entries[k]
  {
    i :| 0 <= i < |seen| && seen[i] == entries[k] && FirstBest(seen, i);
  }

  lemma SeenIdsGrow(seen: seq<Entry>, e: Entry)
    ensures SeenIds(seen + [e]) == SeenIds(seen) + {e.id}
  {
    forall x | x in seen ensures x.id in SeenIds(seen + [e]) {
      assert x in seen + [e];
    }
    assert (seen + [e])[|seen|] == e;
  }

  lemma KeptIdsGrow(entries: map<string, Entry>, e: Entry)
    requires e.key !in entries
    ensures KeptIds(entries[e.key := e]) == KeptIds(entries) + {e.id}
  {
    var after := entries[e.key := e];
    forall k | k in entries ensures entries[k].id in KeptIds(after) {
      assert after[k] == entries[k];
    }
    assert after[e.key] == e;
  }

  lemma KeptIdsChange(entries: map<string, Entry>, key: string, winner: Entry)
    requires key in entries
    requires forall k :: k in entries && k != key ==> entries[k].id != entries[key].id
    ensures KeptIds(entries[key := winner]) == KeptIds(entries) - {entries[key].id} + {winner.id}
  {
    var after := entries[key := winner];
    forall k | k in entries && k != key ensures entries[k].id in KeptIds(after) {
      assert after[k] == entries[k];
    }
    assert after[key] == winner;
  }

  lemma DroppedAfterMerge(seen: seq<Entry>, entries: map<string, Entry>, e: Entry, winner: Entry, loser: Entry)
    requires DistinctIds(seen) && KeptEntries(seen, entries) && e.key in entries
    requires e.id !in SeenIds(seen)
    requires winner == ChooseWinner(entries[e.key], e)
    requires loser == if winner == entries[e.key] then e else entries[e.key]
    ensures loser.id !in DroppedIds(seen, entries)
    ensures DroppedIds(seen + [e], entries[e.key := winner]) == DroppedIds(seen, entries) + {loser.id}
  {
    SeenIdsGrow(seen, e);
    KeptIdsChange(entries, e.key, winner);
  }

  lemma RecordsNone(notes: seq<Option<nat>>, ids: set<nat>)
    requires Records(notes, ids)
    ensures Records(notes + [None], ids)
  {
    forall id ensures Some(id) in notes + [None] <==> Some(id) in notes {
      assert (notes + [None])[..|notes|] == notes;
    }
  }

  lemma AddNew(seen: seq<Entry>, entries: map<string, Entry>, sources: seq<SourceRow>, e: Entry, source: SourceRow)
    requires Folded(seen, entries, sources) && e.key !in entries
    requires e.id !in SeenIds(seen)
    requires source.entry == e.id && source.suppressed.None?
    ensures Folded(seen + [e], entries[e.key := e], sources + [source])
  {
    AddKeepsEntries(seen, entries, e);
    SeenIdsGrow(seen, e);
    KeptIdsGrow(entries, e);
    RecordsNone(Notes(sources), DroppedIds(seen, entries));
    assert Notes(sources + [source]) == Notes(sources) + [None];
  }

  lemma MergePointing(seen: seq<Entry>, entries: map<string, Entry>, sources: seq<SourceRow>, e: Entry, winner: Entry,
                      loser: Entry, source: SourceRow)
    requires DistinctIds(seen) && KeptEntries(seen, entries) && Pointing(seen, entries, sources) && e.key in entries
    requires e.id !in SeenIds(seen)
    requires winner == ChooseWinner(entries[e.key], e)
    requires loser == if winner == entries[e.key] then e else entries[e.key]
    requires source.entry == winner.id
    ensures Pointing(seen + [e], entries[e.key := winner], Repointed(sources, loser.id, winner.id) + [source])
  {
    forall i | 0 <= i < |seen|
      ensures Repointed(sources, loser.id, winner.id)[i].entry == entries[e.key := winner][seen[i].key].id
    {
      var k := KeptIsSeen(seen, entries, seen[i].key);
      var k0 := KeptIsSeen(seen, entries, e.key);
      assert seen[k].id == seen[k0].id ==> k == k0;
    }
  }

  lemma MergeTrail(seen: seq<Entry>, entries: map<string, Entry>, sources: seq<SourceRow>, e: Entry, winner: Entry,
                   loser: Entry, source: SourceRow)
    requires DistinctIds(seen) && KeptEntries(seen, entries) && Trail(seen, entries, sources) && e.key in entries
    requires e.id !in SeenIds(seen)
    requires winner == ChooseWinner(entries[e.key], e)
    requires loser == if winner == entries[e.key] then e else entries[e.key]
    requires source.suppressed == Some(loser.id)
    ensures Trail(seen + [e], entries[e.key := winner], Repointed(sources, loser.id, winner.id) + [source])
  {
    DroppedAfterMerge(seen, entries, e, winner, loser);
    assert Notes(Repointed(sources, loser.id, winner.id) + [source]) == Notes(sources) + [Some(loser.id)];
  }

  lemma Merge(seen: seq<Entry>, entries: map<string, Entry>, sources: seq<SourceRow>, e: Entry, winner: Entry,
              loser: Entry, source: SourceRow)
    requires Folded(seen, entries, sources) && e.key in entries && e.id !in SeenIds(seen)
    requires winner == ChooseWinner(entries[e.key], e)
    requires loser == if winner == entries[e.key] then e else entries[e.key]
    requires source.entry == winner.id && source.suppressed == Some(loser.id)
    ensures Folded(seen + [e], entries[e.key := winner], Repointed(sources, loser.id, winner.id) + [source])
  {
    AddKeepsEntries(seen, entries, e);
    MergePointing(seen, entries, sources, e, winner, loser, source);
    MergeTrail(seen, entries, sources, e, winner, loser, source);
  }

  // ---------- Consequences ----------

  /** No surviving entry is named as suppressed, and no source dangles. */
  lemma NothingKeptIsSuppressed(seen: seq<Entry>, entries: map<string, Entry>, sources: seq<SourceRow>, k: string,
                                i: nat)
    requires Folded(seen, entries, sources) && k in entries && i < |sources|
    ensures sources[i].suppressed != Some(entries[k].id)
    ensures exists key :: key in entries && entries[key].id == sources[i].entry
  {
    assert entries[seen[i].key].id == sources[i].entry;
    assert Notes(sources)[i] == sources[i].suppressed;
    assert entries[k].id in KeptIds(entries);
  }

  /** The fold is a function of its candidates: two results for the same list keep the same entries. */
  lemma KeptEntriesDetermined(seen: seq<Entry>, a: map<string, Entry>, b: map<string, Entry>)
    requires KeptEntries(seen, a) && KeptEntries(seen, b)
    ensures a == b
  {
    forall k | k in a ensures k in b && a[k] == b[k] {
      var i := KeptIsSeen(seen, a, k);
    }
    forall k | k in b ensures k in a {
      var i := KeptIsSeen(seen, b, k);
    }
  }

  /** Sources already recorded keep everything but the entry they point at; the new one says where it comes from. */
  ghost predicate SameEvidence(before: seq<SourceRow>, after: seq<SourceRow>, kind: string, origin: nat) {
    && |after| == |before| + 1
    && (forall i :: 0 <= i < |before| ==> after[i] == before[i].(entry := after[i].entry))
    && after[|before|].kind == kind && after[|before|].origin == origin
  }

  ghost function KeysOf(seen: seq<Entry>): set<string> { set e | e in seen :: e.key }

  lemma RepointedEvidence(sources: seq<SourceRow>, from: nat, to: nat, source: SourceRow)
    ensures SameEvidence(sources, Repointed(sources, from, to) + [source], source.kind, source.origin)
  {
  }

  class Rebuild {
    var entries: map<string, Entry>
    var sources: seq<SourceRow>
    var nextId: nat
    ghost var seen: seq<Entry>

    ghost predicate Valid()
      reads this
    {
      Folded(seen, entries, sources) && forall e :: e in seen ==> e.id < nextId
    }

    constructor ()
      ensures Valid() && seen == []
    {
      entries, sources, nextId, seen := map[], [], 0, [];
    }

    lemma EntryKeys()
      requires Valid()
      ensures entries.Keys == KeysOf(seen)
    {
      forall k | k in entries ensures k in KeysOf(seen) {
        var i := KeptIsSeen(seen, entries, k);
      }
    }

    method AddOrMerge(key: string, status: LedgerStatus, authority: string, draft: Draft, kind: string, origin: nat)
      requires Valid()
      modifies this
      ensures Valid()
      ensures seen == old(seen) + [Entry(old(nextId), key, status, authority, draft)] && ChosenByName(seen, entries)
      ensures SameEvidence(old(sources), sources, kind, origin)
    {
      var entry := Entry(nextId, key, status, authority, draft);
      var source := SourceRow(nextId + 1, nextId, kind, origin, None);
      nextId := nextId + 2;
      if key !in entries {
        AddNew(seen, entries, sources, entry, source);
        entries := entries[key := entry];
        sources := sources + [source];
        seen := seen + [entry];
      } else {
        MergeInto(entry, source);
      }
      KeptByName(seen, entries);
    }

    method MergeInto(entry: Entry, source: SourceRow)
      requires Folded(seen, entries, sources) && entry.key in entries && entry.id !in SeenIds(seen)
      modifies this`entries, this`sources, this`seen
      ensures Folded(seen, entries, sources) && seen == old(seen) + [entry]
      ensures SameEvidence(old(sources), sources, source.kind, source.origin)
    {
      var existing := entries[entry.key];
      var winner := ChooseWinner(existing, entry);
      var loser := if winner == existing then entry else existing;
      var merged := source.(entry := winner.id, suppressed := Some(loser.id));
      Merge(seen, entries, sources, entry, winner, loser, merged);
      RepointedEvidence(sources, loser.id, winner.id, merged);
      entries := entries[entry.key := winner];
      Repoint(loser.id, winner.id);
      sources := sources + [merged];
      seen := seen + [entry];
    }

    /** The in-place pass over the sources already recorded. */
    method Repoint(from: nat, to: nat)
      modifies this`sources
      ensures sources == Repointed(old(sources), from, to)
    {
      for i := 0 to |sources|
        invariant |sources| == |old(sources)|
        invariant forall j :: 0 <= j < i ==> sources[j] == Repointed(old(sources), from, to)[j]
        invariant forall j :: i <= j < |sources| ==> sources[j] == old(sources)[j]
      {
        if sources[i].entry == from {
          sources := sources[i := sources[i].(entry := to)];
        }
      }
    }
  }
}
