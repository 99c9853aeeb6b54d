/** Insertion-ordered buckets of sums, as lib/finance-rollups.ts keeps them in a Map, against filter-and-sum. */
module Buckets {
  import opened Common

  /** A yearly bucket has no secondary category, a subcategory bucket has one. */
  datatype Label = Label(year: nat, sourceKind: string, primary: string, secondary: Option<string>)

  datatype Measure = Inflow | Outflow | Net | Count | Imported | Extracted | Uncategorized

  datatype Totals = Totals(inflow: int, outflow: int, net: int, count: int, imported: int, extracted: int,
                           uncategorized: int)

  /** What one ledger entry or import document adds, and under which key and label. */
  datatype Posting = Posting(key: string, tag: Label, amounts: Totals)

  datatype Rollup = Rollup(key: string, tag: Label, totals: Totals)

  const ZERO := Totals(0, 0, 0, 0, 0, 0, 0)

  function Plus(a: Totals, b: Totals): Totals {
    Totals(a.inflow + b.inflow, a.outflow + b.outflow, a.net + b.net, a.count + b.count,
           a.imported + b.imported, a.extracted + b.extracted, a.uncategorized + b.uncategorized)
  }

  function Get(t: Totals, m: Measure): int {
    match m
    case Inflow => t.inflow
    case Outflow => t.outflow
    case Net => t.net
    case Count => t.count
    case Imported => t.imported
    case Extracted => t.extracted
    case Uncategorized => t.uncategorized
  }

  function Total(posts: seq<Posting>, m: Measure): int {
    if posts == [] then 0 else Total(posts[..|posts| - 1], m) + Get(posts[|posts| - 1].amounts, m)
  }

  function Grand(rows: seq<Rollup>, m: Measure): int {
    if rows == [] then 0 else Grand(rows[..|rows| - 1], m) + Get(rows[|rows| - 1].totals, m)
  }

  predicate WithKey(key: string, p: Posting) { p.key == key }

  function OfKey(key: string): Posting -> bool { (p: Posting) => WithKey(key, p) }

  function NotOfKey(key: string): Posting -> bool { (p: Posting) => !WithKey(key, p) }

  function OfLabel(tag: Label): Posting -> bool { (p: Posting) => p.tag == tag }

  // ---------- What a grouping must be ----------

  ghost predicate FirstOfKey(posts: seq<Posting>, i: nat, key: string, tag: Label) {
    && i < |posts| && posts[i].key == key && posts[i].tag == tag
    && forall j :: 0 <= j < i ==> posts[j].key != key
  }

  /** A bucket takes its label from the first posting of its key. */
  ghost predicate Labelled(posts: seq<Posting>, key: string, tag: Label) {
    exists i :: 0 <= i < |posts| && FirstOfKey(posts, i, key, tag)
  }

  /** A bucket holds the sum of the postings of its key, measure by measure. */
  ghost predicate Holds(posts: seq<Posting>, b: Rollup) {
    forall m: Measure :: Get(b.totals, m) == Total(Filter(posts, OfKey(b.key)), m)
  }

  ghost predicate DistinctKeys(rows: seq<Rollup>) {
    forall i, j :: 0 <= i < j < |rows| ==> rows[i].key != rows[j].key
  }

  ghost predicate HasRow(rows: seq<Rollup>, key: string) {
    exists i :: 0 <= i < |rows| && rows[i].key == key
  }

  ghost predicate EveryKeyHasRow(posts: seq<Posting>, rows: seq<Rollup>) {
    forall p :: p in posts ==> HasRow(rows, p.key)
  }

  /** One bucket per key that occurs, with the label and the sums of that key. */
  ghost predicate Grouped(posts: seq<Posting>, rows: seq<Rollup>) {
    && DistinctKeys(rows)
    && EveryKeyHasRow(posts, rows)
    && (forall b :: b in rows ==> Labelled(posts, b.key, b.tag) && Holds(posts, b))
  }

  lemma {:induction false} TotalAppend(posts: seq<Posting>, p: Posting, m: Measure)
    ensures Total(posts + [p], m) == Total(posts, m) + Get(p.amounts, m)
  {
    assert (posts + [p])[..|posts|] == posts;
  }

  /** What one more posting does to the sum of a key. */
  lemma {:induction false} KeyTotalStep(posts: seq<Posting>, p: Posting, key: string, m: Measure)
    ensures Total(Filter(posts + [p], OfKey(key)), m)
         == Total(Filter(posts, OfKey(key)), m) + if p.key == key then Get(p.amounts, m) else 0
  {
    FilterAppend(posts, p, OfKey(key));
    TotalAppend(Filter(posts, OfKey(key)), p, m);
  }

  lemma HoldsStep(posts: seq<Posting>, b: Rollup, p: Posting)
    requires Holds(posts, b)
    ensures Holds(posts + [p], if p.key == b.key then b.(totals := Plus(b.totals, p.amounts)) else b)
  {
    forall m: Measure {
      KeyTotalStep(posts, p, b.key, m);
    }
  }

  lemma HoldsFirst(posts: seq<Posting>, p: Posting)
    requires forall q :: q in posts ==> q.key != p.key
    ensures Holds(posts + [p], Rollup(p.key, p.tag, Plus(ZERO, p.amounts)))
  {
    FilterNone(posts, OfKey(p.key));
    forall m: Measure {
      KeyTotalStep(posts, p, p.key, m);
    }
  }

  lemma LabelStays(posts: seq<Posting>, p: Posting, key: string, tag: Label)
    requires Labelled(posts, key, tag)
    ensures Labelled(posts + [p], key, tag)
  {
    var i :| 0 <= i < |posts| && FirstOfKey(posts, i, key, tag);
    assert FirstOfKey(posts + [p], i, key, tag);
  }

  lemma GroupedGrows(posts: seq<Posting>, rows: seq<Rollup>, i: nat, p: Posting)
    requires Grouped(posts, rows) && i < |rows| && rows[i].key == p.key
    ensures Grouped(posts + [p], rows[i := rows[i].(totals := Plus(rows[i].totals, p.amounts))])
  {
    var after := rows[i := rows[i].(totals := Plus(rows[i].totals, p.amounts))];
    forall j | 0 <= j < |after|
      ensures Labelled(posts + [p], after[j].key, after[j].tag) && Holds(posts + [p], after[j])
    {
      LabelStays(posts, p, rows[j].key, rows[j].tag);
      HoldsStep(posts, rows[j], p);
    }
    forall q | q in posts + [p] ensures HasRow(after, q.key) {
      assert HasRow(rows, q.key);
      var j :| 0 <= j < |rows| && rows[j].key == q.key;
      assert after[j].key == q.key;
    }
  }

  lemma GroupedOpens(posts: seq<Posting>, rows: seq<Rollup>, p: Posting)
    requires Grouped(posts, rows)
    requires !HasRow(rows, p.key)
    ensures Grouped(posts + [p], rows + [Rollup(p.key, p.tag, Plus(ZERO, p.amounts))])
  {
    var opening := Rollup(p.key, p.tag, Plus(ZERO, p.amounts));
    var after := rows + [opening];
    HoldsFirst(posts, p);
    assert FirstOfKey(posts + [p], |posts|, p.key, p.tag);
    forall j | 0 <= j < |rows| ensures Labelled(posts + [p], rows[j].key, rows[j].tag) && Holds(posts + [p], rows[j]) {
      LabelStays(posts, p, rows[j].key, rows[j].tag);
      HoldsStep(posts, rows[j], p);
      assert rows[j].key != p.key;
    }
    forall q | q in posts + [p] ensures HasRow(after, q.key) {
      if q in posts {
        var j :| 0 <= j < |rows| && rows[j].key == q.key;
        assert after[j].key == q.key;
      } else {
        assert after[|rows|].key == q.key;
      }
    }
  }

  // ---------- Conservation ----------

  /** Sums of one measure alone: what remains of a grouping when labels are ignored. */
  ghost predicate SumsByKey(posts: seq<Posting>, rows: seq<Rollup>, m: Measure) {
    && DistinctKeys(rows)
    && EveryKeyHasRow(posts, rows)
    && (forall b :: b in rows ==> Get(b.totals, m) == Total(Filter(posts, OfKey(b.key)), m))
  }

  lemma {:induction false} TotalSplit(posts: seq<Posting>, key: string, m: Measure)
    ensures Total(posts, m) == Total(Filter(posts, OfKey(key)), m) + Total(Filter(posts, NotOfKey(key)), m)
  {
    if posts != [] {
      var n := |posts| - 1;
      TotalSplit(posts[..n], key, m);
      TotalAppend(Filter(posts[..n], OfKey(key)), posts[n], m);
      TotalAppend(Filter(posts[..n], NotOfKey(key)), posts[n], m);
    }
  }

  lemma WithoutLastBucket(posts: seq<Posting>, rows: seq<Rollup>, m: Measure)
    requires SumsByKey(posts, rows, m) && rows != []
    ensures SumsByKey(Filter(posts, NotOfKey(rows[|rows| - 1].key)), rows[..|rows| - 1], m)
  {
    var n := |rows| - 1;
    forall b | b in rows[..n]
      ensures Get(b.totals, m) == Total(Filter(Filter(posts, NotOfKey(rows[n].key)), OfKey(b.key)), m)
    {
      FilterTwice(posts, NotOfKey(rows[n].key), OfKey(b.key), OfKey(b.key));
    }
  }

  /** A property of keys, stated of postings and of buckets alike. */
  ghost predicate Agree(posts: seq<Posting>, rows: seq<Rollup>, p: Posting -> bool, r: Rollup -> bool) {
    forall x, b :: x in posts && b in rows && x.key == b.key ==> (p(x) <==> r(b))
  }

  /** The buckets chosen by a property of keys add up to the postings that have it. */
  lemma {:induction false} ChosenBucketsAddUp(posts: seq<Posting>, rows: seq<Rollup>, p: Posting -> bool,
                                              r: Rollup -> bool, m: Measure)
    requires SumsByKey(posts, rows, m) && Agree(posts, rows, p, r)
    ensures Grand(Filter(rows, r), m) == Total(Filter(posts, p), m)
    decreases |rows|
  {
    if rows == [] {
    } else {
      var n := |rows| - 1;
      var key := rows[n].key;
      WithoutLastBucket(posts, rows, m);
      ChosenBucketsAddUp(Filter(posts, NotOfKey(key)), rows[..n], p, r, m);
      FilterCommutes(posts, NotOfKey(key), p);
      TotalSplit(Filter(posts, p), key, m);
      FilterCommutes(posts, p, OfKey(key));
      LastBucketShare(posts, rows, p, r, m);
    }
  }

  lemma LastBucketShare(posts: seq<Posting>, rows: seq<Rollup>, p: Posting -> bool, r: Rollup -> bool, m: Measure)
    requires SumsByKey(posts, rows, m) && Agree(posts, rows, p, r) && rows != []
    ensures var n := |rows| - 1;
            Grand(Filter(rows, r), m)
              == Grand(Filter(rows[..n], r), m) + Total(Filter(Filter(posts, OfKey(rows[n].key)), p), m)
  {
    var n := |rows| - 1;
    var ofKey := Filter(posts, OfKey(rows[n].key));
    assert rows[n] in rows;
    if r(rows[n]) {
      FilterAll(ofKey, p);
      GrandAppend(Filter(rows[..n], r), rows[n], m);
    } else {
      FilterNone(ofKey, p);
    }
  }

  lemma {:induction false} GrandAppend(rows: seq<Rollup>, b: Rollup, m: Measure)
    ensures Grand(rows + [b], m) == Grand(rows, m) + Get(b.totals, m)
  {
    assert (rows + [b])[..|rows|] == rows;
  }

  /** All buckets together hold every posting once. */
  lemma BucketsConserve(posts: seq<Posting>, rows: seq<Rollup>, m: Measure)
    requires Grouped(posts, rows)
    ensures Grand(rows, m) == Total(posts, m)
  {
    ChosenBucketsAddUp(posts, rows, (p: Posting) => true, (b: Rollup) => true, m);
    FilterAll(posts, (p: Posting) => true);
    FilterAll(rows, (b: Rollup) => true);
  }

  // ---------- When a bucket is what its label says ----------

  /** No two postings share a key under different labels. */
  ghost predicate Faithful(posts: seq<Posting>) {
    forall p, q :: p in posts && q in posts && p.key == q.key ==> p.tag == q.tag
  }

  /** The key is made from the label, so equal labels have equal keys. */
  ghost predicate KeyedByLabel(posts: seq<Posting>) {
    forall p, q :: p in posts && q in posts && p.tag == q.tag ==> p.key == q.key
  }

  ghost predicate MatchesLabel(posts: seq<Posting>, b: Rollup) {
    forall m: Measure :: Get(b.totals, m) == Total(Filter(posts, OfLabel(b.tag)), m)
  }

  ghost predicate Counted(posts: seq<Posting>) {
    forall p :: p in posts ==>
      p.amounts.count >= 0 && p.amounts.imported >= 0 && p.amounts.count + p.amounts.imported > 0
  }

  /** Every bucket is the filter-and-sum of its own label, exactly when no two labels share a key. */
  lemma BucketsMatchLabels(posts: seq<Posting>, rows: seq<Rollup>)
    requires Grouped(posts, rows) && KeyedByLabel(posts) && Counted(posts)
    ensures (forall b :: b in rows ==> MatchesLabel(posts, b)) <==> Faithful(posts)
  {
    if Faithful(posts) {
      forall b | b in rows ensures MatchesLabel(posts, b) {
        LabelOfFaithful(posts, b);
      }
    } else {
      var p, q :| p in posts && q in posts && p.key == q.key && p.tag != q.tag;
      assert HasRow(rows, p.key);
      var i :| 0 <= i < |rows| && rows[i].key == p.key;
      var b := rows[i];
      assert b in rows && Labelled(posts, b.key, b.tag) && Holds(posts, b);
      MixedBucketMismatch(posts, b, if p.tag == b.tag then q else p);
    }
  }

  lemma LabelOfFaithful(posts: seq<Posting>, b: Rollup)
    requires Labelled(posts, b.key, b.tag) && Holds(posts, b) && Faithful(posts) && KeyedByLabel(posts)
    ensures MatchesLabel(posts, b)
  {
    var i :| 0 <= i < |posts| && FirstOfKey(posts, i, b.key, b.tag);
    assert posts[i] in posts;
    FilterSame(posts, OfKey(b.key), OfLabel(b.tag));
  }

  lemma MixedBucketMismatch(posts: seq<Posting>, b: Rollup, q: Posting)
    requires Labelled(posts, b.key, b.tag) && Holds(posts, b) && KeyedByLabel(posts) && Counted(posts)
    requires q in posts && q.key == b.key && q.tag != b.tag
    ensures !MatchesLabel(posts, b)
  {
    var i :| 0 <= i < |posts| && FirstOfKey(posts, i, b.key, b.tag);
    assert posts[i] in posts;
    FewerByLabel(posts, b.key, b.tag, q);
    assert Get(b.totals, Count) == Total(Filter(posts, OfKey(b.key)), Count);
    assert Get(b.totals, Imported) == Total(Filter(posts, OfKey(b.key)), Imported);
    assert MatchesLabel(posts, b) ==> Get(b.totals, Count) == Total(Filter(posts, OfLabel(b.tag)), Count);
    assert MatchesLabel(posts, b) ==> Get(b.totals, Imported) == Total(Filter(posts, OfLabel(b.tag)), Imported);
  }

  function Weight(posts: seq<Posting>): int { Total(posts, Count) + Total(posts, Imported) }

  lemma {:induction false} WeightAppend(posts: seq<Posting>, p: Posting)
    ensures Weight(posts + [p]) == Weight(posts) + p.amounts.count + p.amounts.imported
  {
    TotalAppend(posts, p, Count);
    TotalAppend(posts, p, Imported);
  }

  lemma {:induction false} FewerByLabel(posts: seq<Posting>, key: string, tag: Label, q: Posting)
    requires Counted(posts)
    requires forall p :: p in posts && p.tag == tag ==> p.key == key
    requires q.key == key && q.tag != tag
    ensures Weight(Filter(posts, OfLabel(tag))) + (if q in posts then 1 else 0) <= Weight(Filter(posts, OfKey(key)))
  {
    if posts != [] {
      var n := |posts| - 1;
      assert posts == posts[..n] + [posts[n]];
      FewerByLabel(posts[..n], key, tag, q);
      WeightAppend(Filter(posts[..n], OfLabel(tag)), posts[n]);
      WeightAppend(Filter(posts[..n], OfKey(key)), posts[n]);
    }
  }
}
