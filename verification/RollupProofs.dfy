/** What the rollup view promises: conservation, balance, and when each bucket is the filter-and-sum of its label. */
module RollupProofs {
  import opened Common
  import opened JsText
  import opened Buckets
  import opened Rollups

  lemma {:induction false} TotalConcat(a: seq<Posting>, b: seq<Posting>, m: Measure)
    ensures Total(a + b, m) == Total(a, m) + Total(b, m)
  {
    if b == [] {
      assert a + b == a;
    } else {
      var n := |b| - 1;
      assert (a + b)[..|a + b| - 1] == a + b[..n];
      TotalConcat(a, b[..n], m);
    }
  }

  function DatedCount(docs: seq<ImportDocument>): (n: nat)
    ensures n <= |docs|
    ensures n == |docs| <==> forall d :: d in docs ==> ExtractYear(d.periodEnd).Some?
  {
    if docs == [] then 0
    else DatedCount(docs[..|docs| - 1]) + if ExtractYear(docs[|docs| - 1].periodEnd).Some? then 1 else 0
  }

  lemma DocumentAmounts(d: ImportDocument, m: Measure)
    ensures DocumentPosting(d).Some? <==> ExtractYear(d.periodEnd).Some?
    ensures DocumentPosting(d).Some? ==> Get(DocumentPosting(d).value.amounts, m) == if m.Imported? then 1 else 0
  {
  }

  lemma {:induction false} DocumentTotals(docs: seq<ImportDocument>, m: Measure)
    ensures Total(DocumentPostings(docs), m) == if m.Imported? then DatedCount(docs) else 0
  {
    if docs != [] {
      var n := |docs| - 1;
      DocumentTotals(docs[..n], m);
      DocumentAmounts(docs[n], m);
      if DocumentPosting(docs[n]).Some? {
        TotalAppend(DocumentPostings(docs[..n]), DocumentPosting(docs[n]).value, m);
      }
    }
  }

  lemma {:induction false} MoneyTotals(ledger: seq<LedgerEntry>, m: Measure)
    requires IsMoney(m)
    ensures Total(SubcategoryPostings(ledger), m) == Total(YearlyPostings(ledger), m)
  {
    if ledger != [] {
      var n := |ledger| - 1;
      MoneyTotals(ledger[..n], m);
      TotalAppend(YearlyPostings(ledger[..n]), YearlyPosting(ledger[n]), m);
      TotalAppend(SubcategoryPostings(ledger[..n]), SubcategoryPosting(ledger[n]), m);
    }
  }

  lemma {:induction false} ExtractedIsCount(ledger: seq<LedgerEntry>)
    ensures Total(YearlyPostings(ledger), Extracted) == Total(YearlyPostings(ledger), Count)
  {
    if ledger != [] {
      var n := |ledger| - 1;
      ExtractedIsCount(ledger[..n]);
      TotalAppend(YearlyPostings(ledger[..n]), YearlyPosting(ledger[n]), Extracted);
      TotalAppend(YearlyPostings(ledger[..n]), YearlyPosting(ledger[n]), Count);
    }
  }

  lemma {:induction false} LedgerImportsNothing(ledger: seq<LedgerEntry>)
    ensures Total(YearlyPostings(ledger), Imported) == 0
  {
    if ledger != [] {
      var n := |ledger| - 1;
      LedgerImportsNothing(ledger[..n]);
      TotalAppend(YearlyPostings(ledger[..n]), YearlyPosting(ledger[n]), Imported);
    }
  }

  lemma LedgerTotals(ledger: seq<LedgerEntry>)
    ensures Total(YearlyPostings(ledger), Extracted) == Total(YearlyPostings(ledger), Count)
    ensures Total(YearlyPostings(ledger), Imported) == 0
  {
    ExtractedIsCount(ledger);
    LedgerImportsNothing(ledger);
  }

  function SummaryMeasure(s: Summary, m: Measure): int {
    match m
    case Inflow => s.inflow
    case Outflow => s.outflow
    case Net => s.net
    case Count => s.extracted
    case Imported => s.imported
    case Extracted => s.extracted
    case Uncategorized => s.uncategorized
  }

  /**
   * The yearly buckets add up to the summary in every measure but one: documents without a readable period end are
   * counted by the summary and by no bucket.
   */
  lemma YearlyBucketsAddUpToSummary(v: View, ledger: seq<LedgerEntry>, docs: seq<ImportDocument>, m: Measure)
    requires IsView(v, ledger, docs)
    ensures Grand(v.rollups, m) == if m.Imported? then DatedCount(docs) else SummaryMeasure(v.summary, m)
    ensures (forall k: Measure :: Grand(v.rollups, k) == SummaryMeasure(v.summary, k))
       <==> (forall d :: d in docs ==> ExtractYear(d.periodEnd).Some?)
  {
    forall k: Measure
      ensures Grand(v.rollups, k) == if k.Imported? then DatedCount(docs) else SummaryMeasure(v.summary, k)
    {
      YearlyGrand(v, ledger, docs, k);
    }
    assert SummaryMeasure(v.summary, Imported) == |docs|;
    assert Grand(v.rollups, Imported) == DatedCount(docs);
  }

  lemma YearlyGrand(v: View, ledger: seq<LedgerEntry>, docs: seq<ImportDocument>, m: Measure)
    requires IsView(v, ledger, docs)
    ensures Grand(v.rollups, m) == if m.Imported? then DatedCount(docs) else SummaryMeasure(v.summary, m)
  {
    BucketsConserve(YearlyPostings(ledger) + DocumentPostings(docs), v.rollups, m);
    TotalConcat(YearlyPostings(ledger), DocumentPostings(docs), m);
    DocumentTotals(docs, m);
    LedgerTotals(ledger);
  }

  lemma SubcategoryBucketsAddUpToSummary(v: View, ledger: seq<LedgerEntry>, docs: seq<ImportDocument>, m: Measure)
    requires IsView(v, ledger, docs) && IsMoney(m)
    ensures Grand(v.subcategoryRollups, m) == SummaryMeasure(v.summary, m)
  {
    BucketsConserve(SubcategoryPostings(ledger), v.subcategoryRollups, m);
    MoneyTotals(ledger, m);
    LedgerTotals(ledger);
  }

  // ---------- Net ----------

  ghost predicate Balanced(posts: seq<Posting>) {
    forall p :: p in posts ==> p.amounts.net == p.amounts.inflow - p.amounts.outflow
  }

  lemma {:induction false} BalancedTotal(posts: seq<Posting>)
    requires Balanced(posts)
    ensures Total(posts, Net) == Total(posts, Inflow) - Total(posts, Outflow)
  {
    if posts != [] {
      BalancedTotal(posts[..|posts| - 1]);
    }
  }

  lemma {:induction false} PostingsBalanced(ledger: seq<LedgerEntry>, docs: seq<ImportDocument>)
    ensures Balanced(YearlyPostings(ledger)) && Balanced(SubcategoryPostings(ledger))
    ensures Balanced(DocumentPostings(docs))
    decreases |ledger| + |docs|
  {
    if ledger != [] {
      PostingsBalanced(ledger[..|ledger| - 1], docs);
    } else if docs != [] {
      PostingsBalanced(ledger, docs[..|docs| - 1]);
    }
  }

  /** Net is inflow minus outflow in every bucket and in the summary. */
  lemma NetIsInflowMinusOutflow(v: View, ledger: seq<LedgerEntry>, docs: seq<ImportDocument>)
    requires IsView(v, ledger, docs)
    ensures v.summary.net == v.summary.inflow - v.summary.outflow
    ensures forall b :: b in v.rollups || b in v.subcategoryRollups ==>
              b.totals.net == b.totals.inflow - b.totals.outflow
  {
    PostingsBalanced(ledger, docs);
    BalancedTotal(YearlyPostings(ledger));
    forall b | b in v.rollups ensures b.totals.net == b.totals.inflow - b.totals.outflow {
      BucketBalanced(YearlyPostings(ledger) + DocumentPostings(docs), b);
    }
    forall b | b in v.subcategoryRollups ensures b.totals.net == b.totals.inflow - b.totals.outflow {
      BucketBalanced(SubcategoryPostings(ledger), b);
    }
  }

  lemma BucketBalanced(posts: seq<Posting>, b: Rollup)
    requires Holds(posts, b) && Balanced(posts)
    ensures b.totals.net == b.totals.inflow - b.totals.outflow
  {
    BalancedTotal(Filter(posts, OfKey(b.key)));
    assert Get(b.totals, Net) == Get(b.totals, Inflow) - Get(b.totals, Outflow);
  }

  // ---------- Subcategories within their primary ----------

  function PrimaryOf(tag: Label): Label { tag.(secondary := None) }

  function UnderPosting(tag: Label): Posting -> bool { (p: Posting) => PrimaryOf(p.tag) == tag }

  function UnderRollup(tag: Label): Rollup -> bool { (b: Rollup) => PrimaryOf(b.tag) == tag }

  lemma {:induction false} PrimaryTotals(ledger: seq<LedgerEntry>, tag: Label, m: Measure)
    requires IsMoney(m)
    ensures Total(Filter(SubcategoryPostings(ledger), UnderPosting(tag)), m)
              == Total(Filter(YearlyPostings(ledger), OfLabel(tag)), m)
  {
    if ledger != [] {
      PrimaryTotals(ledger[..|ledger| - 1], tag, m);
      PrimaryTotalsStep(ledger, tag, m);
    }
  }

  lemma {:induction false} PrimaryTotalsStep(ledger: seq<LedgerEntry>, tag: Label, m: Measure)
    requires IsMoney(m) && ledger != []
    requires var front := ledger[..|ledger| - 1];
             Total(Filter(SubcategoryPostings(front), UnderPosting(tag)), m)
               == Total(Filter(YearlyPostings(front), OfLabel(tag)), m)
    ensures Total(Filter(SubcategoryPostings(ledger), UnderPosting(tag)), m)
              == Total(Filter(YearlyPostings(ledger), OfLabel(tag)), m)
  {
    var (front, e) := (ledger[..|ledger| - 1], ledger[|ledger| - 1]);
    UnderStep(SubcategoryPostings(front), SubcategoryPosting(e), UnderPosting(tag), m);
    UnderStep(YearlyPostings(front), YearlyPosting(e), OfLabel(tag), m);
  }

  lemma {:induction false} UnderStep(posts: seq<Posting>, p: Posting, chosen: Posting -> bool, m: Measure)
    ensures Total(Filter(posts + [p], chosen), m)
              == Total(Filter(posts, chosen), m) + if chosen(p) then Get(p.amounts, m) else 0
  {
    FilterAppend(posts, p, chosen);
    TotalAppend(Filter(posts, chosen), p, m);
  }

  lemma {:induction false} DocumentsOnlyImport(docs: seq<ImportDocument>, tag: Label, m: Measure)
    requires !m.Imported?
    ensures Total(Filter(DocumentPostings(docs), OfLabel(tag)), m) == 0
  {
    if docs != [] {
      var n := |docs| - 1;
      DocumentsOnlyImport(docs[..n], tag, m);
      if DocumentPosting(docs[n]).Some? {
        UnderStep(DocumentPostings(docs[..n]), DocumentPosting(docs[n]).value, OfLabel(tag), m);
      }
    }
  }

  /** The subcategory buckets of a primary category add up to its yearly bucket. */
  lemma SubcategoriesAddUpToPrimary(v: View, ledger: seq<LedgerEntry>, docs: seq<ImportDocument>, b: Rollup, m: Measure)
    requires IsView(v, ledger, docs) && b in v.rollups && IsMoney(m)
    requires Faithful(YearlyPostings(ledger) + DocumentPostings(docs)) && Faithful(SubcategoryPostings(ledger))
    ensures Grand(Filter(v.subcategoryRollups, UnderRollup(b.tag)), m) == Get(b.totals, m)
  {
    var (sub, ledgerPosts, docPosts) := (SubcategoryPostings(ledger), YearlyPostings(ledger), DocumentPostings(docs));
    var yearly := ledgerPosts + docPosts;
    ChosenBucketsAddUp(sub, v.subcategoryRollups, UnderPosting(b.tag), UnderRollup(b.tag), m);
    PrimaryTotals(ledger, b.tag, m);
    PostingsKeyed(ledger, docs);
    LabelOfFaithful(yearly, b);
    FilterConcat(ledgerPosts, docPosts, OfLabel(b.tag));
    TotalConcat(Filter(ledgerPosts, OfLabel(b.tag)), Filter(docPosts, OfLabel(b.tag)), m);
    DocumentsOnlyImport(docs, b.tag, m);
  }

  // ---------- Keys ----------

  function LabelKey(tag: Label): string {
    if tag.secondary.Some? then SubcategoryKey(tag.year, tag.sourceKind, tag.primary, tag.secondary.value)
    else YearlyKey(tag.year, tag.sourceKind, tag.primary)
  }

  ghost predicate Keyed(posts: seq<Posting>, yearly: bool) {
    forall p :: p in posts ==> p.key == LabelKey(p.tag) && (p.tag.secondary.None? <==> yearly)
  }

  lemma {:induction false} PostingsKeyed(ledger: seq<LedgerEntry>, docs: seq<ImportDocument>)
    ensures Keyed(YearlyPostings(ledger), true) && Keyed(SubcategoryPostings(ledger), false)
    ensures Keyed(DocumentPostings(docs), true)
    ensures KeyedByLabel(YearlyPostings(ledger) + DocumentPostings(docs)) && KeyedByLabel(SubcategoryPostings(ledger))
    decreases |ledger| + |docs|
  {
    if ledger != [] {
      PostingsKeyed(ledger[..|ledger| - 1], docs);
    } else if docs != [] {
      PostingsKeyed(ledger, docs[..|docs| - 1]);
    }
  }

  lemma {:induction false} PostingsCounted(ledger: seq<LedgerEntry>, docs: seq<ImportDocument>)
    ensures Counted(YearlyPostings(ledger)) && Counted(SubcategoryPostings(ledger)) && Counted(DocumentPostings(docs))
    decreases |ledger| + |docs|
  {
    if ledger != [] {
      PostingsCounted(ledger[..|ledger| - 1], docs);
    } else if docs != [] {
      PostingsCounted(ledger, docs[..|docs| - 1]);
    }
  }

  /**
   * Every yearly bucket is the filter-and-sum of its year, source kind and category, exactly when the keys keep these
   * apart.
   */
  lemma YearlyBucketsMatchLabels(v: View, ledger: seq<LedgerEntry>, docs: seq<ImportDocument>)
    requires IsView(v, ledger, docs)
    ensures var posts := YearlyPostings(ledger) + DocumentPostings(docs);
            (forall b :: b in v.rollups ==> MatchesLabel(posts, b)) <==> Faithful(posts)
  {
    PostingsKeyed(ledger, docs);
    PostingsCounted(ledger, docs);
    BucketsMatchLabels(YearlyPostings(ledger) + DocumentPostings(docs), v.rollups);
  }

  lemma SubcategoryBucketsMatchLabels(v: View, ledger: seq<LedgerEntry>, docs: seq<ImportDocument>)
    requires IsView(v, ledger, docs)
    ensures (forall b :: b in v.subcategoryRollups ==> MatchesLabel(SubcategoryPostings(ledger), b))
              <==> Faithful(SubcategoryPostings(ledger))
  {
    PostingsKeyed(ledger, docs);
    PostingsCounted(ledger, docs);
    BucketsMatchLabels(SubcategoryPostings(ledger), v.subcategoryRollups);
  }

  // ---------- Buckets and the entries they stand for ----------

  /** The amounts of the entries, without their signs; an entry without an amount counts for nothing. */
  function SumAbs(entries: seq<LedgerEntry>): int {
    if entries == [] then 0 else SumAbs(entries[..|entries| - 1]) + Unsigned(entries[|entries| - 1].amountMinor)
  }

  function Unsigned(amount: Option<int>): int {
    if amount.None? then 0 else if amount.value < 0 then -amount.value else amount.value
  }

  /** The label an entry is filed under, with or without its secondary category. */
  function LabelOf(e: LedgerEntry, sub: bool): Label {
    Label(e.year, e.sourceKind, e.primary,
          if !sub then None else if e.secondary.Some? then e.secondary else Some("uncategorized"))
  }

  /** The entries filed under a label. */
  function OfTag(tag: Label): LedgerEntry -> bool { (e: LedgerEntry) => LabelOf(e, tag.secondary.Some?) == tag }

  function Everything(): LedgerEntry -> bool { (e: LedgerEntry) => true }

  /** Of the chosen entries, those of one direction that are ready or up for review. */
  function Counting(chosen: LedgerEntry -> bool, direction: string): LedgerEntry -> bool {
    (e: LedgerEntry) => chosen(e) && (e.status == "ready" || e.status == "review") && e.direction == direction
  }

  function Uncategorised(chosen: LedgerEntry -> bool): LedgerEntry -> bool {
    (e: LedgerEntry) => chosen(e) && e.primary == "uncategorized"
  }

  function Postings(ledger: seq<LedgerEntry>, sub: bool): seq<Posting> {
    if sub then SubcategoryPostings(ledger) else YearlyPostings(ledger)
  }

  function PostingOf(e: LedgerEntry, sub: bool): Posting {
    if sub then SubcategoryPosting(e) else YearlyPosting(e)
  }

  function HowMany(ledger: seq<LedgerEntry>, chosen: LedgerEntry -> bool): nat {
    |Filter(ledger, Counting(chosen, "income"))| + |Filter(ledger, Counting(chosen, "expense"))|
  }

  /** What the chosen entries come to. */
  function EntryTotal(ledger: seq<LedgerEntry>, chosen: LedgerEntry -> bool, m: Measure): int {
    var income := SumAbs(Filter(ledger, Counting(chosen, "income")));
    var expense := SumAbs(Filter(ledger, Counting(chosen, "expense")));
    match m
    case Inflow => income
    case Outflow => expense
    case Net => income - expense
    case Count | Extracted => HowMany(ledger, chosen)
    case Uncategorized => HowMany(ledger, Uncategorised(chosen))
    case Imported => 0
  }

  lemma {:induction false} SumAbsStep(entries: seq<LedgerEntry>, e: LedgerEntry, p: LedgerEntry -> bool)
    ensures SumAbs(Filter(entries + [e], p)) == SumAbs(Filter(entries, p)) + if p(e) then Unsigned(e.amountMinor) else 0
  {
    FilterAppend(entries, e, p);
    assert (Filter(entries, p) + [e])[..|Filter(entries, p)|] == Filter(entries, p);
  }

  lemma {:induction false} HowManyStep(entries: seq<LedgerEntry>, e: LedgerEntry, chosen: LedgerEntry -> bool)
    ensures HowMany(entries + [e], chosen) == HowMany(entries, chosen) + if Eligible(e) && chosen(e) then 1 else 0
  {
    FilterAppend(entries, e, Counting(chosen, "income"));
    FilterAppend(entries, e, Counting(chosen, "expense"));
    assert "income"[0] != "expense"[0];
  }

  lemma {:induction false} EntryTotalStep(entries: seq<LedgerEntry>, e: LedgerEntry, chosen: LedgerEntry -> bool,
                                          m: Measure)
    ensures EntryTotal(entries + [e], chosen, m) == EntryTotal(entries, chosen, m)
         + if Eligible(e) && chosen(e) then Get(YearlyPosting(e).amounts, m) else 0
  {
    SumAbsStep(entries, e, Counting(chosen, "income"));
    SumAbsStep(entries, e, Counting(chosen, "expense"));
    HowManyStep(entries, e, chosen);
    HowManyStep(entries, e, Uncategorised(chosen));
    assert "income"[0] != "expense"[0];
  }

  lemma {:induction false} PostingsStep(front: seq<LedgerEntry>, e: LedgerEntry, sub: bool)
    ensures Postings(front + [e], sub)
              == if Eligible(e) then Postings(front, sub) + [PostingOf(e, sub)] else Postings(front, sub)
  {
    assert (front + [e])[..|front|] == front;
  }

  /** Chosen postings and the entries they were made from come to the same. */
  ghost predicate TotalsAgree(ledger: seq<LedgerEntry>, sub: bool, q: Posting -> bool, chosen: LedgerEntry -> bool,
                              m: Measure) {
    Total(Filter(Postings(ledger, sub), q), m) == EntryTotal(ledger, chosen, m)
  }

  lemma {:induction false} PostingsTotalIsEntryTotal(ledger: seq<LedgerEntry>, sub: bool, q: Posting -> bool,
                                                     chosen: LedgerEntry -> bool, m: Measure)
    requires forall e :: q(PostingOf(e, sub)) <==> chosen(e)
    requires sub ==> IsMoney(m)
    ensures TotalsAgree(ledger, sub, q, chosen, m)
  {
    if ledger == [] {
    } else {
      var (front, e) := (ledger[..|ledger| - 1], ledger[|ledger| - 1]);
      assert ledger == front + [e];
      PostingsTotalIsEntryTotal(front, sub, q, chosen, m);
      PostingsStep(front, e, sub);
      UnderStep(Postings(front, sub), PostingOf(e, sub), q, m);
      EntryTotalStep(front, e, chosen, m);
    }
  }

  /** The summary is the filter-and-sum of the whole ledger, and counts every document. */
  lemma SummaryIsFilterAndSum(v: View, ledger: seq<LedgerEntry>, docs: seq<ImportDocument>, m: Measure)
    requires IsView(v, ledger, docs)
    ensures SummaryMeasure(v.summary, m) == EntryTotal(ledger, Everything(), m) + if m.Imported? then |docs| else 0
  {
    PostingsTotalIsEntryTotal(ledger, false, (p: Posting) => true, Everything(), m);
    FilterAll(YearlyPostings(ledger), (p: Posting) => true);
    LedgerTotals(ledger);
  }

  /** A document is filed as an uncategorized statement of the year its period ends in, unless it names its kind. */
  function DocumentUnder(tag: Label): ImportDocument -> bool {
    (d: ImportDocument) =>
      && ExtractYear(d.periodEnd) == Some(tag.year)
      && tag.sourceKind == (if |d.sourceKind| == 0 then "statement" else d.sourceKind)
      && tag.primary == "uncategorized" && tag.secondary.None?
  }

  lemma DocumentUnderLabel(d: ImportDocument, tag: Label)
    ensures DocumentUnder(tag)(d) <==> DocumentPosting(d).Some? && OfLabel(tag)(DocumentPosting(d).value)
    ensures DocumentPosting(d).Some? ==> DocumentPosting(d).value.amounts.imported == 1
  {
  }

  /** How many of the documents are chosen. */
  function HowManyFiled(docs: seq<ImportDocument>, filed: ImportDocument -> bool): nat { |Filter(docs, filed)| }

  lemma OneMoreDocument(front: seq<ImportDocument>, d: ImportDocument, filed: ImportDocument -> bool)
    ensures HowManyFiled(front + [d], filed) == HowManyFiled(front, filed) + if filed(d) then 1 else 0
  {
    FilterAppend(front, d, filed);
  }

  /** What the chosen postings import. */
  function ImportedBy(posts: seq<Posting>, q: Posting -> bool): int { Total(Filter(posts, q), Imported) }

  lemma {:induction false} DocumentsUnderLabel(docs: seq<ImportDocument>, tag: Label)
    ensures ImportedBy(DocumentPostings(docs), OfLabel(tag)) == HowManyFiled(docs, DocumentUnder(tag))
  {
    if docs != [] {
      var (front, d) := (docs[..|docs| - 1], docs[|docs| - 1]);
      DocumentsUnderLabel(front, tag);
      assert docs == front + [d];
      OneMoreDocument(front, d, DocumentUnder(tag));
      DocumentUnderLabel(d, tag);
      if DocumentPosting(d).Some? {
        OneMoreImported(DocumentPostings(front), DocumentPosting(d).value, OfLabel(tag));
      }
    }
  }

  lemma {:induction false} OneMoreImported(posts: seq<Posting>, p: Posting, q: Posting -> bool)
    ensures ImportedBy(posts + [p], q) == ImportedBy(posts, q) + if q(p) then p.amounts.imported else 0
  {
    UnderStep(posts, p, q, Imported);
  }

  /**
   * A yearly bucket holds exactly the absolute amounts and the numbers of the counting entries of its year, source
   * kind and category, and the number of its documents, as long as keys keep labels apart.
   */
  lemma YearlyBucketIsFilterAndSum(v: View, ledger: seq<LedgerEntry>, docs: seq<ImportDocument>, b: Rollup, m: Measure)
    requires IsView(v, ledger, docs) && b in v.rollups
    requires Faithful(YearlyPostings(ledger) + DocumentPostings(docs))
    ensures b.tag.secondary.None?
    ensures Get(b.totals, m)
              == EntryTotal(ledger, OfTag(b.tag), m) + if m.Imported? then HowManyFiled(docs, DocumentUnder(b.tag))
                else 0
  {
    var (ledgerPosts, docPosts) := (YearlyPostings(ledger), DocumentPostings(docs));
    PostingsKeyed(ledger, docs);
    LabelOfFaithful(ledgerPosts + docPosts, b);
    FilterConcat(ledgerPosts, docPosts, OfLabel(b.tag));
    TotalConcat(Filter(ledgerPosts, OfLabel(b.tag)), Filter(docPosts, OfLabel(b.tag)), m);
    if m.Imported? {
      DocumentsUnderLabel(docs, b.tag);
    } else {
      DocumentsOnlyImport(docs, b.tag, m);
    }
    PostingsTotalIsEntryTotal(ledger, false, OfLabel(b.tag), OfTag(b.tag), m);
  }

  lemma SubcategoryBucketIsFilterAndSum(v: View, ledger: seq<LedgerEntry>, docs: seq<ImportDocument>, b: Rollup,
                                        m: Measure)
    requires IsView(v, ledger, docs) && b in v.subcategoryRollups && IsMoney(m) && Faithful(SubcategoryPostings(ledger))
    ensures b.tag.secondary.Some? && Get(b.totals, m) == EntryTotal(ledger, OfTag(b.tag), m)
  {
    PostingsKeyed(ledger, docs);
    LabelOfFaithful(SubcategoryPostings(ledger), b);
    PostingsTotalIsEntryTotal(ledger, true, OfLabel(b.tag), OfTag(b.tag), m);
  }

  lemma {:induction false} DecimalColonless(n: nat)
    ensures Colonless(Decimal(n))
  {
    if n >= 10 {
      DecimalColonless(n / 10);
    }
  }

  lemma {:induction false} DecimalInjective(a: nat, b: nat)
    requires Decimal(a) == Decimal(b)
    ensures a == b
  {
    var (x, y) := (Decimal(a), Decimal(b));
    if a >= 10 && b >= 10 {
      assert x[..|x| - 1] == Decimal(a / 10) && y[..|y| - 1] == Decimal(b / 10);
      assert x[|x| - 1] == Digit(a % 10) && y[|y| - 1] == Digit(b % 10);
      DecimalInjective(a / 10, b / 10);
    }
  }

  /**
   * Yearly keys keep labels apart when no source kind contains a colon; subcategory keys need that of categories too.
   */
  lemma KeysKeepLabelsApart(a: Label, b: Label)
    requires LabelKey(a) == LabelKey(b) && (a.secondary.Some? <==> b.secondary.Some?)
    requires Colonless(a.sourceKind) && Colonless(b.sourceKind)
    requires a.secondary.Some? ==> Colonless(a.primary) && Colonless(b.primary)
    ensures a == b
  {
    var restA := a.primary + if a.secondary.Some? then ":" + a.secondary.value else "";
    var restB := b.primary + if b.secondary.Some? then ":" + b.secondary.value else "";
    assert LabelKey(a) == Decimal(a.year) + ":" + (a.sourceKind + ":" + restA);
    assert LabelKey(b) == Decimal(b.year) + ":" + (b.sourceKind + ":" + restB);
    DecimalColonless(a.year);
    DecimalColonless(b.year);
    FirstColon(Decimal(a.year), a.sourceKind + ":" + restA, Decimal(b.year), b.sourceKind + ":" + restB);
    DecimalInjective(a.year, b.year);
    FirstColon(a.sourceKind, restA, b.sourceKind, restB);
    if a.secondary.None? {
      assert restA == a.primary && restB == b.primary;
    } else {
      assert restA == a.primary + ":" + a.secondary.value && restB == b.primary + ":" + b.secondary.value;
      FirstColon(a.primary, a.secondary.value, b.primary, b.secondary.value);
    }
  }

  /** Source kinds without colons are enough for every yearly bucket to match its label. */
  lemma ColonlessKindsSuffice(ledger: seq<LedgerEntry>, docs: seq<ImportDocument>)
    requires forall p :: p in YearlyPostings(ledger) + DocumentPostings(docs) ==> Colonless(p.tag.sourceKind)
    ensures Faithful(YearlyPostings(ledger) + DocumentPostings(docs))
    ensures (forall p :: p in SubcategoryPostings(ledger) ==>
             Colonless(p.tag.sourceKind) && Colonless(p.tag.primary)) ==> Faithful(SubcategoryPostings(ledger))
  {
    PostingsKeyed(ledger, docs);
    var yearly := YearlyPostings(ledger) + DocumentPostings(docs);
    forall p, q | p in yearly && q in yearly && p.key == q.key ensures p.tag == q.tag {
      KeysKeepLabelsApart(p.tag, q.tag);
    }
    if forall p :: p in SubcategoryPostings(ledger) ==> Colonless(p.tag.sourceKind) && Colonless(p.tag.primary) {
      forall p, q | p in SubcategoryPostings(ledger) && q in SubcategoryPostings(ledger) && p.key == q.key
        ensures p.tag == q.tag
      {
        KeysKeepLabelsApart(p.tag, q.tag);
      }
    }
  }

  // ---------- The kinds and categories the program writes ----------

  /** E-mail, and the kinds an imported artifact can have. */
  const SOURCE_KINDS := ["email", "pdf", "statement", "csv", "ofx"]

  const PRIMARY_CATEGORIES := [
    "income", "housing", "utilities", "banking_fees", "transfers", "taxes", "insurance", "healthcare", "travel",
    "meals", "shopping", "software_services", "education", "office_business", "payroll_contractors", "investments",
    "donations", "subscriptions", "uncategorized"]

  /** Kinds and categories are those the schemas admit; a document without a kind counts as a statement. */
  ghost predicate FromSchemas(ledger: seq<LedgerEntry>, docs: seq<ImportDocument>) {
    && (forall e :: e in ledger ==> e.sourceKind in SOURCE_KINDS && e.primary in PRIMARY_CATEGORIES)
    && (forall d :: d in docs ==> d.sourceKind == "" || d.sourceKind in SOURCE_KINDS)
  }

  lemma SchemasHaveNoColons()
    ensures forall s :: s in SOURCE_KINDS ==> Colonless(s)
    ensures forall s :: s in PRIMARY_CATEGORIES ==> Colonless(s)
  {
    assert forall i :: 0 <= i < |SOURCE_KINDS| ==> Colonless(SOURCE_KINDS[i]);
    assert forall i :: 0 <= i < |PRIMARY_CATEGORIES| ==> Colonless(PRIMARY_CATEGORIES[i]);
  }

  ghost predicate ColonlessTags(posts: seq<Posting>) {
    forall p :: p in posts ==> Colonless(p.tag.sourceKind) && Colonless(p.tag.primary)
  }

  lemma {:induction false} EntryTagsAreColonless(ledger: seq<LedgerEntry>)
    requires forall e :: e in ledger ==> Colonless(e.sourceKind) && Colonless(e.primary)
    ensures ColonlessTags(YearlyPostings(ledger)) && ColonlessTags(SubcategoryPostings(ledger))
  {
    if ledger != [] {
      EntryTagsAreColonless(ledger[..|ledger| - 1]);
    }
  }

  lemma {:induction false} DocumentTagsAreColonless(docs: seq<ImportDocument>)
    requires forall d :: d in docs ==> Colonless(d.sourceKind)
    ensures ColonlessTags(DocumentPostings(docs))
  {
    if docs != [] {
      DocumentTagsAreColonless(docs[..|docs| - 1]);
      SchemasHaveNoColons();
      assert SOURCE_KINDS[2] == "statement" && PRIMARY_CATEGORIES[18] == "uncategorized";
    }
  }

  /** For what the program itself writes, no two labels share a key. */
  lemma SchemasKeepLabelsApart(ledger: seq<LedgerEntry>, docs: seq<ImportDocument>)
    requires FromSchemas(ledger, docs)
    ensures Faithful(YearlyPostings(ledger) + DocumentPostings(docs)) && Faithful(SubcategoryPostings(ledger))
  {
    SchemasHaveNoColons();
    EntryTagsAreColonless(ledger);
    DocumentTagsAreColonless(docs);
    ColonlessKindsSuffice(ledger, docs);
  }

  /** So every bucket of the view is the filter-and-sum of its label, without further conditions. */
  lemma SchemaBucketsAreFilterAndSum(v: View, ledger: seq<LedgerEntry>, docs: seq<ImportDocument>, b: Rollup,
                                     m: Measure)
    requires IsView(v, ledger, docs) && FromSchemas(ledger, docs) && IsMoney(m)
    requires b in v.rollups || b in v.subcategoryRollups
    ensures Get(b.totals, m) == EntryTotal(ledger, OfTag(b.tag), m)
  {
    SchemasKeepLabelsApart(ledger, docs);
    if b in v.rollups {
      YearlyBucketIsFilterAndSum(v, ledger, docs, b, m);
    } else {
      SubcategoryBucketIsFilterAndSum(v, ledger, docs, b, m);
    }
  }

  /** With a colon in a source kind, which the schemas rule out, two different categories share one bucket. */
  lemma ColonMergesBuckets() returns (ledger: seq<LedgerEntry>)
    ensures !Faithful(YearlyPostings(ledger) + DocumentPostings([]))
  {
    var first := LedgerEntry("ready", "income", 2024, "a", "b:c", None, Some(1));
    var second := LedgerEntry("ready", "income", 2024, "a:b", "c", None, Some(1));
    ledger := [first, second];
    var (p, q) := (YearlyPosting(first), YearlyPosting(second));
    assert ledger[..1] == [first] && [first][..0] == [];
    assert YearlyPostings([first]) == [] + [p] && YearlyPostings(ledger) == YearlyPostings([first]) + [q];
    var posts := YearlyPostings(ledger) + DocumentPostings([]);
    assert posts[0] == p && posts[1] == q && posts[0] in posts && posts[1] in posts;
    assert "a" + ":" + "b:c" == "a:b" + ":" + "c";
    assert p.key == Decimal(2024) + ":" + ("a" + ":" + "b:c") && q.key == Decimal(2024) + ":" + ("a:b" + ":" + "c");
  }
}
