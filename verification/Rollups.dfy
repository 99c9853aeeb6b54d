/** `buildFinanceRollupView` of lib/finance-rollups.ts. */
module Rollups {
  import opened Common
  import opened Sorting
  import opened Buckets

  datatype LedgerEntry = LedgerEntry(
    status: string,
    direction: string,
    year: nat,
    sourceKind: string,
    primary: string,
    secondary: Option<string>,
    amountMinor: Option<int>)

  datatype ImportDocument = ImportDocument(sourceKind: string, periodEnd: Option<string>)

  datatype Summary = Summary(inflow: int, outflow: int, net: int, imported: int, extracted: int, uncategorized: int)

  datatype View = View(summary: Summary, rollups: seq<Rollup>, subcategoryRollups: seq<Rollup>)

  predicate Eligible(e: LedgerEntry) {
    (e.status == "ready" || e.status == "review") && (e.direction == "income" || e.direction == "expense")
  }

  predicate IsDigit(c: char) { '0' <= c <= '9' }

  function DigitValue(c: char): nat
    requires IsDigit(c)
  {
    (c - '0') as nat
  }

  /** The four leading digits, or None; a year of zero counts as none. */
  function ExtractYear(value: Option<string>): Option<nat> {
    if value.Some? && |value.value| >= 4 && forall i :: 0 <= i < 4 ==> IsDigit(value.value[i]) then
      var s := value.value;
      var year := 1000 * DigitValue(s[0]) + 100 * DigitValue(s[1]) + 10 * DigitValue(s[2]) + DigitValue(s[3]);
      if year == 0 then None else Some(year)
    else None
  }

  const DIGITS := "0123456789"

  lemma DigitsByValue(c: char, d: nat)
    requires d < 10
    ensures DIGITS[d] == c <==> IsDigit(c) && DigitValue(c) == d
  {
  }

  /** Four leading digits make the year, unless they are all zero. */
  lemma YearOfDigits(value: string, a: nat, b: nat, c: nat, d: nat)
    requires a < 10 && b < 10 && c < 10 && d < 10
    requires [DIGITS[a], DIGITS[b], DIGITS[c], DIGITS[d]] <= value
    ensures ExtractYear(Some(value))
         == if a == b == c == d == 0 then None else Some(1000 * a + 100 * b + 10 * c + d)
  {
    var digits := [DIGITS[a], DIGITS[b], DIGITS[c], DIGITS[d]];
    assert value[0] == digits[0] && value[1] == digits[1] && value[2] == digits[2] && value[3] == digits[3];
    DigitsByValue(value[0], a);
    DigitsByValue(value[1], b);
    DigitsByValue(value[2], c);
    DigitsByValue(value[3], d);
  }

  /** Without four of them there is no year. */
  lemma NoYearWithoutDigits(value: Option<string>)
    requires value.Some? && |value.value| >= 4 ==> exists i :: 0 <= i < 4 && value.value[i] !in DIGITS
    ensures ExtractYear(value) == None
  {
    if value.Some? && |value.value| >= 4 {
      var i :| 0 <= i < 4 && value.value[i] !in DIGITS;
      if IsDigit(value.value[i]) {
        DigitsByValue(value.value[i], DigitValue(value.value[i]));
      }
    }
  }

  // ---------- Keys ----------

  function Digit(d: nat): (c: char)
    requires d < 10
    ensures c != ':'
  {
    '0' + d as char
  }

  function Decimal(n: nat): string {
    if n < 10 then [Digit(n)] else Decimal(n / 10) + [Digit(n % 10)]
  }

  function YearlyKey(year: nat, sourceKind: string, primary: string): string {
    Decimal(year) + ":" + sourceKind + ":" + primary
  }

  function SubcategoryKey(year: nat, sourceKind: string, primary: string, secondary: string): string {
    Decimal(year) + ":" + sourceKind + ":" + primary + ":" + secondary
  }

  // ---------- What each row adds ----------

  function Abs(n: int): int { if n < 0 then -n else n }

  function AmountsOf(e: LedgerEntry): Totals {
    var amount := Abs(OrElse(e.amountMinor, 0));
    var uncategorized := if e.primary == "uncategorized" then 1 else 0;
    if e.direction == "income" then Totals(amount, 0, amount, 1, 0, 1, uncategorized)
    else Totals(0, amount, -amount, 1, 0, 1, uncategorized)
  }

  /** The measures a subcategory bucket keeps. */
  function MoneyOf(t: Totals): Totals { t.(imported := 0, extracted := 0, uncategorized := 0) }

  predicate IsMoney(m: Measure) { m.Inflow? || m.Outflow? || m.Net? || m.Count? }

  function YearlyPosting(e: LedgerEntry): Posting {
    Posting(YearlyKey(e.year, e.sourceKind, e.primary), Label(e.year, e.sourceKind, e.primary, None), AmountsOf(e))
  }

  function SubcategoryPosting(e: LedgerEntry): Posting {
    var secondary := OrElse(e.secondary, "uncategorized");
    Posting(SubcategoryKey(e.year, e.sourceKind, e.primary, secondary),
            Label(e.year, e.sourceKind, e.primary, Some(secondary)), MoneyOf(AmountsOf(e)))
  }

  function DocumentPosting(d: ImportDocument): Option<Posting> {
    var sourceKind := if d.sourceKind == "" then "statement" else d.sourceKind;
    match ExtractYear(d.periodEnd)
    case None => None
    case Some(year) =>
      Some(Posting(YearlyKey(year, sourceKind, "uncategorized"), Label(year, sourceKind, "uncategorized", None),
                   ZERO.(imported := 1)))
  }

  function YearlyPostings(ledger: seq<LedgerEntry>): seq<Posting> {
    if ledger == [] then []
    else
      var n := |ledger| - 1;
      if Eligible(ledger[n]) then YearlyPostings(ledger[..n]) + [YearlyPosting(ledger[n])]
        else YearlyPostings(ledger[..n])
  }

  function SubcategoryPostings(ledger: seq<LedgerEntry>): seq<Posting> {
    if ledger == [] then []
    else
      var n := |ledger| - 1;
      if Eligible(ledger[n]) then SubcategoryPostings(ledger[..n]) + [SubcategoryPosting(ledger[n])]
        else SubcategoryPostings(ledger[..n])
  }

  function DocumentPostings(docs: seq<ImportDocument>): seq<Posting> {
    if docs == [] then []
    else
      var n := |docs| - 1;
      if DocumentPosting(docs[n]).Some? then DocumentPostings(docs[..n]) + [DocumentPosting(docs[n]).value]
        else DocumentPostings(docs[..n])
  }

  ghost predicate IsSummary(s: Summary, ledger: seq<LedgerEntry>, documents: nat) {
    Sums(s, YearlyPostings(ledger), documents)
  }

  ghost predicate Sums(s: Summary, posts: seq<Posting>, documents: nat) {
    && s.inflow == Total(posts, Inflow) && s.outflow == Total(posts, Outflow) && s.net == Total(posts, Net)
    && s.extracted == Total(posts, Extracted) && s.uncategorized == Total(posts, Uncategorized)
    && s.imported == documents
  }

  ghost predicate IsView(v: View, ledger: seq<LedgerEntry>, docs: seq<ImportDocument>) {
    && IsSummary(v.summary, ledger, |docs|)
    && Grouped(YearlyPostings(ledger) + DocumentPostings(docs), v.rollups)
    && Grouped(SubcategoryPostings(ledger), v.subcategoryRollups)
  }

  // ---------- The pass ----------

  /** A Map of buckets that remembers insertion order. */
  class BucketMap {
    var index: map<string, nat>
    var rows: seq<Rollup>
    ghost var posts: seq<Posting>

    ghost predicate Valid()
      reads this
    {
      && Grouped(posts, rows)
      && (forall k :: k in index ==> index[k] < |rows| && rows[index[k]].key == k)
      && (forall i :: 0 <= i < |rows| ==> rows[i].key in index)
    }

    constructor ()
      ensures Valid() && posts == []
    {
      index, rows, posts := map[], [], [];
    }

    /** Fetches the bucket or an empty one, adds the amounts, and stores it back. */
    method Post(p: Posting)
      requires Valid()
      modifies this
      ensures Valid() && posts == old(posts) + [p]
    {
      if p.key in index {
        var i := index[p.key];
        GroupedGrows(posts, rows, i, p);
        rows := rows[i := rows[i].(totals := Plus(rows[i].totals, p.amounts))];
      } else {
        GroupedOpens(posts, rows, p);
        index := index[p.key := |rows|];
        rows := rows + [Rollup(p.key, p.tag, Plus(ZERO, p.amounts))];
      }
      posts := posts + [p];
    }
  }

  method PostLedger(yearly: BucketMap, subcategory: BucketMap, ledger: seq<LedgerEntry>)
    requires yearly != subcategory && yearly.Valid() && subcategory.Valid() && yearly.posts == []
    requires subcategory.posts == []
    modifies yearly, subcategory
    ensures yearly.Valid() && yearly.posts == YearlyPostings(ledger)
    ensures subcategory.Valid() && subcategory.posts == SubcategoryPostings(ledger)
  {
    for i := 0 to |ledger|
      invariant yearly.Valid() && yearly.posts == YearlyPostings(ledger[..i])
      invariant subcategory.Valid() && subcategory.posts == SubcategoryPostings(ledger[..i])
    {
      assert ledger[..i + 1][..i] == ledger[..i];
      if Eligible(ledger[i]) {
        yearly.Post(YearlyPosting(ledger[i]));
        subcategory.Post(SubcategoryPosting(ledger[i]));
      }
    }
    assert ledger[..|ledger|] == ledger;
  }

  lemma {:induction false} DocumentPostingsStep(start: seq<Posting>, docs: seq<ImportDocument>, i: nat)
    requires i < |docs|
    ensures var before := start + DocumentPostings(docs[..i]);
            start + DocumentPostings(docs[..i + 1])
              == if DocumentPosting(docs[i]).Some? then before + [DocumentPosting(docs[i]).value] else before
  {
    assert docs[..i + 1][..i] == docs[..i];
  }

  method PostDocuments(yearly: BucketMap, docs: seq<ImportDocument>)
    requires yearly.Valid()
    modifies yearly
    ensures yearly.Valid() && yearly.posts == old(yearly.posts) + DocumentPostings(docs)
  {
    ghost var start := yearly.posts;
    for i := 0 to |docs|
      invariant yearly.Valid() && yearly.posts == start + DocumentPostings(docs[..i])
    {
      DocumentPostingsStep(start, docs, i);
      var posting := DocumentPosting(docs[i]);
      if posting.Some? {
        yearly.Post(posting.value);
      }
    }
    assert docs[..|docs|] == docs;
  }

  function Added(acc: Summary, t: Totals): Summary {
    Summary(acc.inflow + t.inflow, acc.outflow + t.outflow, acc.net + t.net, acc.imported,
            acc.extracted + t.extracted, acc.uncategorized + t.uncategorized)
  }

  method Summarize(ledger: seq<LedgerEntry>, documents: nat) returns (acc: Summary)
    ensures IsSummary(acc, ledger, documents)
  {
    acc := Summary(0, 0, 0, documents, 0, 0);
    for i := 0 to |ledger|
      invariant IsSummary(acc, ledger[..i], documents)
    {
      SummaryStep(acc, ledger, i, documents);
      if Eligible(ledger[i]) {
        acc := Added(acc, AmountsOf(ledger[i]));
      }
    }
    assert ledger[..|ledger|] == ledger;
  }

  lemma {:induction false} SummaryStep(acc: Summary, ledger: seq<LedgerEntry>, i: nat, documents: nat)
    requires i < |ledger| && IsSummary(acc, ledger[..i], documents)
    ensures var next := if Eligible(ledger[i]) then Added(acc, AmountsOf(ledger[i])) else acc;
            IsSummary(next, ledger[..i + 1], documents)
  {
    var (front, e) := (ledger[..i], ledger[i]);
    assert ledger[..i + 1] == front + [e] && (front + [e])[..i] == front;
    if Eligible(e) {
      forall m: Measure
        ensures Total(YearlyPostings(front + [e]), m) == Total(YearlyPostings(front), m) + Get(AmountsOf(e), m)
      {
        LedgerTotalStep(front, e, m);
      }
    }
  }

  lemma {:induction false} LedgerTotalStep(ledger: seq<LedgerEntry>, e: LedgerEntry, m: Measure)
    requires Eligible(e)
    ensures Total(YearlyPostings(ledger + [e]), m) == Total(YearlyPostings(ledger), m) + Get(AmountsOf(e), m)
  {
    assert (ledger + [e])[..|ledger|] == ledger;
    TotalAppend(YearlyPostings(ledger), YearlyPosting(e), m);
  }

  // ---------- The order of the lists ----------

  /** `localeCompare`, read as "not after". */
  type Collator = (string, string) -> bool

  /** It orders all strings, and tells different ones apart. */
  ghost predicate Collates(notAfter: Collator) {
    TotalPreorder(notAfter) && forall a, b :: notAfter(a, b) && notAfter(b, a) ==> a == b
  }

  /** Newest year first, then by source kind, primary and, in the subcategory list, secondary category. */
  predicate LabelNotAfter(notAfter: Collator, a: Label, b: Label) {
    if a.year != b.year then a.year > b.year
    else if a.sourceKind != b.sourceKind then notAfter(a.sourceKind, b.sourceKind)
    else if a.primary != b.primary then notAfter(a.primary, b.primary)
    else notAfter(OrElse(a.secondary, ""), OrElse(b.secondary, ""))
  }

  function ListOrder(notAfter: Collator): (Rollup, Rollup) -> bool {
    (a: Rollup, b: Rollup) => LabelNotAfter(notAfter, a.tag, b.tag)
  }

  /** A list in this order has newer years first, kinds in order within a year, categories in order within a kind. */
  lemma NewestFirst(notAfter: Collator, rows: seq<Rollup>, i: nat, j: nat)
    requires Collates(notAfter) && Sorted(rows, ListOrder(notAfter)) && i < j < |rows|
    ensures var (a, b) := (rows[i].tag, rows[j].tag);
            && a.year >= b.year
            && (a.year == b.year ==> notAfter(a.sourceKind, b.sourceKind))
            && (a.year == b.year && a.sourceKind == b.sourceKind ==> notAfter(a.primary, b.primary))
            && (a.(secondary := b.secondary) == b && a.secondary.Some? && b.secondary.Some? ==>
                  notAfter(a.secondary.value, b.secondary.value))
  {
    assert ListOrder(notAfter)(rows[i], rows[j]);
    assert notAfter(rows[i].tag.sourceKind, rows[i].tag.sourceKind)
      && notAfter(rows[i].tag.primary, rows[i].tag.primary);
  }

  /** Sorting buckets keeps the grouping. */
  lemma SortedStaysGrouped(posts: seq<Posting>, rows: seq<Rollup>, ordered: seq<Rollup>)
    requires Grouped(posts, rows) && multiset(ordered) == multiset(rows) && forall b :: b in ordered <==> b in rows
    ensures Grouped(posts, ordered)
  {
    forall i, j | 0 <= i < j < |ordered| ensures ordered[i].key != ordered[j].key {
      assert ordered[i] in ordered && ordered[j] in ordered;
      MultiplicityAtMostOne(rows, ordered[i]);
      RepetitionCounts(ordered, i, j);
    }
  }

  method SortRollups(rows: seq<Rollup>, notAfter: Collator, ghost posts: seq<Posting>) returns (ordered: seq<Rollup>)
    requires Collates(notAfter) && Grouped(posts, rows)
    ensures Grouped(posts, ordered) && Sorted(ordered, ListOrder(notAfter))
  {
    ordered := Sort(rows, ListOrder(notAfter));
    SortedStaysGrouped(posts, rows, ordered);
  }

  method BuildFinanceRollupView(ledger: seq<LedgerEntry>, docs: seq<ImportDocument>, notAfter: Collator)
    returns (view: View)
    requires Collates(notAfter)
    ensures IsView(view, ledger, docs)
    ensures Sorted(view.rollups, ListOrder(notAfter)) && Sorted(view.subcategoryRollups, ListOrder(notAfter))
  {
    var yearly := new BucketMap();
    var subcategory := new BucketMap();
    PostLedger(yearly, subcategory, ledger);
    PostDocuments(yearly, docs);
    var summary := Summarize(ledger, |docs|);
    var rollups := SortRollups(yearly.rows, notAfter, yearly.posts);
    var subcategoryRollups := SortRollups(subcategory.rows, notAfter, subcategory.posts);
    view := View(summary, rollups, subcategoryRollups);
  }
}
