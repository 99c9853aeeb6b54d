/** Page selection and in-place dedupe of lib/finance-upload.ts, after the pages have been scored. */
module PageDedupe {
  import opened Common
  import opened Sorting

  type Embedding = seq<real>

  type Similarity = (Embedding, Embedding) -> real

  const POSITIVE_SELECTION_THRESHOLD := 0.28
  const NEAR_DUPLICATE_SIMILARITY := 0.95

  class PageProbe {
    const imageSha256: Option<string>
    const embedding: Option<Embedding>
    const candidateScore: Option<real>
    var selectedForLlm: bool
    var candidateReasons: seq<string>

    constructor (imageSha256: Option<string>, embedding: Option<Embedding>, candidateScore: Option<real>)
      ensures this.imageSha256 == imageSha256 && this.embedding == embedding && this.candidateScore == candidateScore
      ensures !selectedForLlm && candidateReasons == []
    {
      this.imageSha256, this.embedding, this.candidateScore, selectedForLlm, candidateReasons :=
        imageSha256, embedding, candidateScore, false, [];
    }
  }

  ghost predicate Distinct(pages: seq<PageProbe>) {
    forall i, j :: 0 <= i < j < |pages| ==> pages[i] != pages[j]
  }

  /** The selection flags of the pages. */
  ghost function Flags(pages: seq<PageProbe>): seq<bool>
    reads pages
  {
    seq(|pages|, i requires 0 <= i < |pages| reads pages => pages[i].selectedForLlm)
  }

  // ---------- Selection ----------

  predicate Positive(p: PageProbe) { OrElse(p.candidateScore, 0.0) >= POSITIVE_SELECTION_THRESHOLD }

  function Rank(pages: seq<PageProbe>, i: nat): real
    requires i < |pages|
  {
    OrElse(pages[i].candidateScore, -1.0)
  }

  predicate Beside(i: nat, j: nat) { i - 1 <= j <= i + 1 }

  /** A positive page at `i` or next to it. */
  ghost predicate NearPositive(pages: seq<PageProbe>, i: nat) {
    NearPositiveAmong(pages, |pages|, i)
  }

  ghost predicate NearPositiveAmong(pages: seq<PageProbe>, n: nat, i: nat)
    requires n <= |pages|
  {
    exists j :: 0 <= j < n && Beside(i, j) && Positive(pages[j])
  }

  ghost predicate SomePositive(pages: seq<PageProbe>) {
    exists j :: 0 <= j < |pages| && Positive(pages[j])
  }

  /** The best three pages, ties in any order. */
  ghost predicate TopThree(pages: seq<PageProbe>, chosen: set<nat>) {
    && |chosen| == Min(3, |pages|)
    && (forall i :: i in chosen ==> 0 <= i < |pages|)
    && (forall i, j | i in chosen && 0 <= j < |pages| && j !in chosen :: Rank(pages, j) <= Rank(pages, i))
  }

  /** What the selection must be: positives with their neighbours, or the best three when nothing is positive. */
  ghost predicate IsSelection(pages: seq<PageProbe>, chosen: set<nat>) {
    if SomePositive(pages) then forall i :: 0 <= i < |pages| ==> (i in chosen <==> NearPositive(pages, i))
    else TopThree(pages, chosen)
  }

  // ---------- The selection, by scores ----------

  ghost predicate ScoresAtLeast(p: PageProbe, score: real) { p.candidateScore.Some? && p.candidateScore.value >= score }

  /** A page without a score ranks below every page with a score above -1. */
  ghost function ScoreOr(p: PageProbe): real { if p.candidateScore.Some? then p.candidateScore.value else -1.0 }

  /** Page `j` scores 0.28 or more and is `i` or next to it. */
  ghost predicate Promotes(pages: seq<PageProbe>, j: nat, i: nat)
    requires j < |pages|
  {
    ScoresAtLeast(pages[j], 0.28) && (j == i || j == i + 1 || j + 1 == i)
  }

  /** The pages chosen: around each high score, or three that nothing left out outscores when no page scores high. */
  lemma SelectionByScores(pages: seq<PageProbe>, chosen: set<nat>)
    requires IsSelection(pages, chosen)
    ensures if exists p :: p in pages && ScoresAtLeast(p, 0.28)
            then forall i :: 0 <= i < |pages| ==>
              (i in chosen <==> exists j :: 0 <= j < |pages| && Promotes(pages, j, i))
            else
              && (if |pages| >= 3 then |chosen| == 3 else |chosen| == |pages|)
              && (forall i :: i in chosen ==> 0 <= i < |pages|)
              && forall i, j | i in chosen && 0 <= j < |pages| && j !in chosen ::
                   ScoreOr(pages[j]) <= ScoreOr(pages[i])
  {
    assert forall p :: p in pages ==> (Positive(p) <==> ScoresAtLeast(p, 0.28));
    assert (exists p :: p in pages && ScoresAtLeast(p, 0.28)) <==> SomePositive(pages);
    if SomePositive(pages) {
      forall i | 0 <= i < |pages| ensures i in chosen <==> exists j :: 0 <= j < |pages| && Promotes(pages, j, i) {
        if NearPositive(pages, i) {
          var j :| 0 <= j < |pages| && Beside(i, j) && Positive(pages[j]);
          assert Promotes(pages, j, i);
        }
        if j :| 0 <= j < |pages| && Promotes(pages, j, i) {
          assert Beside(i, j) && Positive(pages[j]);
        }
      }
    } else {
      forall i, j | i in chosen && 0 <= j < |pages| && j !in chosen ensures ScoreOr(pages[j]) <= ScoreOr(pages[i]) {
        assert Rank(pages, j) <= Rank(pages, i);
      }
    }
  }

  method PositivesWithNeighbours(pages: seq<PageProbe>) returns (selected: set<nat>)
    ensures forall i :: 0 <= i < |pages| ==> (i in selected <==> NearPositive(pages, i))
    ensures selected == {} <==> !SomePositive(pages)
  {
    selected := {};
    for n := 0 to |pages|
      invariant forall i :: i in selected <==> NearPositiveAmong(pages, n, i)
    {
      forall i
        ensures NearPositiveAmong(pages, n + 1, i)
           <==> NearPositiveAmong(pages, n, i) || (Beside(i, n) && Positive(pages[n]))
      {
      }
      if Positive(pages[n]) {
        // The index before the first page names no page, so it is left out.
        selected := selected + {n, n + 1} + if n > 0 then {n - 1} else {};
      }
    }
    if SomePositive(pages) {
      var j :| 0 <= j < |pages| && Positive(pages[j]);
      assert Beside(j, j) && j in selected;
    } else {
      assert forall i :: i !in selected;
    }
  }

  function RankOf(pages: seq<PageProbe>, i: nat): real {
    if i < |pages| then Rank(pages, i) else -1.0
  }

  /** Best score first. */
  function ByRank(pages: seq<PageProbe>): (nat, nat) -> bool {
    (a: nat, b: nat) => RankOf(pages, b) <= RankOf(pages, a)
  }

  method Ranked(pages: seq<PageProbe>) returns (ordered: seq<nat>)
    ensures |ordered| == |pages| && Sorted(ordered, ByRank(pages))
    ensures forall i, j :: 0 <= i < j < |ordered| ==> ordered[i] != ordered[j]
    ensures forall i :: i in ordered <==> 0 <= i < |pages|
  {
    var indices: seq<nat> := seq(|pages|, i => i);
    ordered := Sort(indices, ByRank(pages));
    SortDistinct(indices, ByRank(pages));
    forall i ensures i in ordered <==> 0 <= i < |pages| {
      if 0 <= i < |pages| {
        assert indices[i] == i;
      }
    }
  }

  method BestThree(pages: seq<PageProbe>) returns (selected: set<nat>)
    ensures TopThree(pages, selected)
  {
    var ordered := Ranked(pages);
    selected := FirstOnes(ordered, Min(3, |ordered|));
    FirstOnesAreBest(pages, ordered, selected, Min(3, |ordered|));
  }

  method FirstOnes(ordered: seq<nat>, n: nat) returns (selected: set<nat>)
    requires n <= |ordered| && forall i, j :: 0 <= i < j < |ordered| ==> ordered[i] != ordered[j]
    ensures |selected| == n
    ensures forall i :: i in selected <==> i in ordered[..n]
  {
    selected := {};
    for k := 0 to n
      invariant |selected| == k
      invariant forall i :: i in selected <==> i in ordered[..k]
    {
      assert ordered[..k + 1] == ordered[..k] + [ordered[k]];
      selected := selected + {ordered[k]};
    }
  }

  lemma FirstOnesAreBest(pages: seq<PageProbe>, ordered: seq<nat>, selected: set<nat>, n: nat)
    requires n <= |ordered| && Sorted(ordered, ByRank(pages))
    requires forall i :: i in ordered <==> 0 <= i < |pages|
    requires forall i :: i in selected <==> i in ordered[..n]
    ensures forall i, j | i in selected && 0 <= j < |pages| && j !in selected :: RankOf(pages, j) <= RankOf(pages, i)
    ensures forall i :: i in selected ==> 0 <= i < |pages|
  {
    forall i, j | i in selected && 0 <= j < |pages| && j !in selected ensures RankOf(pages, j) <= RankOf(pages, i) {
      assert j in ordered;
      var a :| 0 <= a < n && ordered[a] == i;
      var b :| 0 <= b < |ordered| && ordered[b] == j;
      assert forall c :: 0 <= c < n ==> ordered[..n][c] == ordered[c] && ordered[c] in selected;
      assert ByRank(pages)(ordered[a], ordered[b]);
    }
    forall i | i in selected ensures 0 <= i < |pages| {
      assert i in ordered;
    }
  }

  method SelectPages(pages: seq<PageProbe>) returns (ghost chosen: set<nat>)
    requires Distinct(pages)
    modifies pages
    ensures IsSelection(pages, chosen)
    ensures forall i :: 0 <= i < |pages| ==> (pages[i].selectedForLlm <==> i in chosen)
    ensures forall i :: 0 <= i < |pages| ==>
              pages[i].candidateReasons
                == old(pages[i].candidateReasons) + if i in chosen then ["selected_for_llm"] else []
  {
    var selected := PositivesWithNeighbours(pages);
    if |selected| == 0 {
      selected := BestThree(pages);
    }
    MarkSelected(pages, selected);
    chosen := selected;
  }

  method MarkSelected(pages: seq<PageProbe>, selected: set<nat>)
    requires Distinct(pages)
    modifies pages
    ensures forall i :: 0 <= i < |pages| ==> (pages[i].selectedForLlm <==> i in selected)
    ensures forall i :: 0 <= i < |pages| ==>
              pages[i].candidateReasons
                == old(pages[i].candidateReasons) + if i in selected then ["selected_for_llm"] else []
  {
    for n := 0 to |pages|
      invariant forall i :: 0 <= i < n ==> (pages[i].selectedForLlm <==> i in selected)
      invariant forall i :: 0 <= i < n ==>
                  pages[i].candidateReasons
                    == old(pages[i].candidateReasons) + if i in selected then ["selected_for_llm"] else []
      invariant forall i :: n <= i < |pages| ==> pages[i].candidateReasons == old(pages[i].candidateReasons)
    {
      pages[n].selectedForLlm := n in selected;
      if pages[n].selectedForLlm {
        pages[n].candidateReasons := pages[n].candidateReasons + ["selected_for_llm"];
      }
    }
  }

  lemma SomeMember(s: set<nat>) returns (x: nat)
    requires |s| > 0
    ensures x in s
  {
    assert s != {};
    x :| x in s;
  }

  /** From any non-empty page list at least one page is selected. */
  lemma SelectionNotEmpty(pages: seq<PageProbe>, chosen: set<nat>) returns (i: nat)
    requires IsSelection(pages, chosen) && |pages| > 0
    ensures i < |pages| && i in chosen
  {
    if SomePositive(pages) {
      i :| 0 <= i < |pages| && Positive(pages[i]);
      assert Beside(i, i) && NearPositive(pages, i);
    } else {
      i := SomeMember(chosen);
    }
  }

  // ---------- Dedupe ----------

  /** What the dedupe pass compares. */
  datatype Image = Image(sha: Option<string>, embedding: Option<Embedding>)

  function ImageOf(p: PageProbe): Image { Image(p.imageSha256, p.embedding) }

  function Images(pages: seq<PageProbe>): seq<Image> { seq(|pages|, i requires 0 <= i < |pages| => ImageOf(pages[i])) }

  predicate SameImage(a: Image, b: Image) { a.sha.Some? && a.sha.value != "" && a.sha == b.sha }

  predicate Near(similarity: Similarity, a: Image, b: Image) {
    a.embedding.Some? && b.embedding.Some?
      && similarity(a.embedding.value, b.embedding.value) > NEAR_DUPLICATE_SIMILARITY
  }

  /** What became of a page. */
  datatype Verdict = Unselected | Kept | SameImageDropped | NearDropped

  /** An earlier selected page, kept or not, has the same image. */
  ghost predicate RepeatsImage(images: seq<Image>, before: seq<bool>, i: nat)
    requires i < |images| == |before|
  {
    exists j :: 0 <= j < i && before[j] && SameImage(images[j], images[i])
  }

  /** An earlier kept page is too similar. */
  ghost predicate NearKept(similarity: Similarity, images: seq<Image>, verdicts: seq<Verdict>, i: nat)
    requires i < |images| && i <= |verdicts|
  {
    exists k :: 0 <= k < i && verdicts[k] == Kept && Near(similarity, images[k], images[i])
  }

  /** A selected page is kept exactly when it neither repeats an image nor comes too near a kept page. */
  ghost predicate Judged(similarity: Similarity, images: seq<Image>, before: seq<bool>, verdicts: seq<Verdict>) {
    && |verdicts| <= |images| == |before|
    && forall i :: 0 <= i < |verdicts| ==> IsVerdict(similarity, images, before, verdicts, i, verdicts[i])
  }

  ghost predicate IsVerdict(similarity: Similarity, images: seq<Image>, before: seq<bool>, verdicts: seq<Verdict>,
                            i: nat, v: Verdict)
    requires i < |images| == |before| && i <= |verdicts|
  {
    v == if !before[i] then Unselected
         else if RepeatsImage(images, before, i) then SameImageDropped
         else if NearKept(similarity, images, verdicts, i) then NearDropped
         else Kept
  }

  ghost predicate SameHash(p: PageProbe, q: PageProbe) {
    p.imageSha256.Some? && |p.imageSha256.value| > 0 && q.imageSha256 == p.imageSha256
  }

  ghost predicate TooClose(similarity: Similarity, p: PageProbe, q: PageProbe) {
    p.embedding.Some? && q.embedding.Some? && similarity(p.embedding.value, q.embedding.value) > 0.95
  }

  /** A page keeps its place unless an earlier selected one has its hash, or an earlier kept one comes too close. */
  lemma VerdictByPages(similarity: Similarity, pages: seq<PageProbe>, before: seq<bool>, verdicts: seq<Verdict>, i: nat)
    requires Judged(similarity, Images(pages), before, verdicts) && i < |pages| == |before| == |verdicts|
    ensures var repeated := exists j :: 0 <= j < i && before[j] && SameHash(pages[j], pages[i]);
            var close := exists k :: 0 <= k < i && verdicts[k] == Kept && TooClose(similarity, pages[k], pages[i]);
            verdicts[i] == if !before[i] then Unselected
                           else if repeated then SameImageDropped
                           else if close then NearDropped
                           else Kept
  {
    var images := Images(pages);
    forall j | 0 <= j < i
      ensures SameImage(images[j], images[i]) <==> SameHash(pages[j], pages[i])
      ensures Near(similarity, images[j], images[i]) <==> TooClose(similarity, pages[j], pages[i])
    {
    }
    assert IsVerdict(similarity, images, before, verdicts, i, verdicts[i]);
  }

  /** The verdicts are determined by the pages. */
  lemma {:induction false} VerdictsDetermined(similarity: Similarity, images: seq<Image>, before: seq<bool>,
                                              a: seq<Verdict>, b: seq<Verdict>, i: nat)
    requires Judged(similarity, images, before, a) && Judged(similarity, images, before, b) && i < |a| && i < |b|
    ensures a[i] == b[i]
    decreases i
  {
    forall k | 0 <= k < i ensures a[k] == b[k] {
      VerdictsDetermined(similarity, images, before, a, b, k);
    }
    assert NearKept(similarity, images, a, i) <==> NearKept(similarity, images, b, i);
  }

  /** At least one selected page is kept. */
  lemma {:induction false} SomePageKept(similarity: Similarity, images: seq<Image>, before: seq<bool>,
                                        verdicts: seq<Verdict>, i: nat)
    returns (k: nat)
    requires Judged(similarity, images, before, verdicts) && i < |verdicts| && before[i]
    ensures k <= i && verdicts[k] == Kept
    decreases i
  {
    if j :| 0 <= j < i && before[j] {
      k := SomePageKept(similarity, images, before, verdicts, j);
    } else {
      k := i;
      assert forall j :: 0 <= j < i ==> verdicts[j] == Unselected;
    }
  }

  /** No two kept pages share an image hash or come too near. */
  lemma KeptPagesDiffer(similarity: Similarity, images: seq<Image>, before: seq<bool>, verdicts: seq<Verdict>, i: nat,
                        j: nat)
    requires Judged(similarity, images, before, verdicts)
    requires forall a, b :: similarity(a, b) == similarity(b, a)
    requires i < |verdicts| && j < |verdicts| && i != j && verdicts[i] == Kept && verdicts[j] == Kept
    ensures !SameImage(images[i], images[j]) && !Near(similarity, images[i], images[j])
  {
    var (a, b) := (Min(i, j), Max(i, j));
    assert !RepeatsImage(images, before, b) && !NearKept(similarity, images, verdicts, b);
    assert before[a];
  }

  /** One or two duplicate links lead from page `i` to the kept page `k`. */
  ghost predicate Reaches(similarity: Similarity, images: seq<Image>, verdicts: seq<Verdict>, i: nat, k: nat)
    requires i < |images| == |verdicts| && k < |images|
  {
    && verdicts[k] == Kept
    && (|| SameImage(images[k], images[i])
        || Near(similarity, images[k], images[i])
        || exists j :: 0 <= j < i && SameImage(images[j], images[i]) && Near(similarity, images[k], images[j]))
  }

  /** Every dropped page reaches a kept earlier page in at most two duplicate links. */
  lemma DroppedPageReachesKept(similarity: Similarity, images: seq<Image>, before: seq<bool>, verdicts: seq<Verdict>,
                               i: nat)
    returns (k: nat)
    requires Judged(similarity, images, before, verdicts) && i < |images| == |verdicts|
    requires verdicts[i] == SameImageDropped || verdicts[i] == NearDropped
    ensures k < i && Reaches(similarity, images, verdicts, i, k)
  {
    if verdicts[i] == NearDropped {
      k :| 0 <= k < i && verdicts[k] == Kept && Near(similarity, images[k], images[i]);
    } else {
      var j := FirstWithImage(images, before, i);
      if verdicts[j] == Kept {
        k := j;
      } else {
        assert NearKept(similarity, images, verdicts, j);
        k :| 0 <= k < j && verdicts[k] == Kept && Near(similarity, images[k], images[j]);
      }
    }
  }

  lemma {:induction false} FirstWithImage(images: seq<Image>, before: seq<bool>, i: nat) returns (j: nat)
    requires i < |images| == |before| && RepeatsImage(images, before, i)
    ensures j < i && before[j] && SameImage(images[j], images[i]) && !RepeatsImage(images, before, j)
    decreases i
  {
    j :| 0 <= j < i && before[j] && SameImage(images[j], images[i]);
    if RepeatsImage(images, before, j) {
      j := FirstWithImage(images, before, j);
    }
  }

  // ---------- The pass ----------

  function ReasonsOf(v: Verdict): seq<string> {
    match v
    case SameImageDropped => ["duplicate_image_sha"]
    case NearDropped => ["near_duplicate_embedding"]
    case _ => []
  }

  ghost predicate HashesSeen(images: seq<Image>, before: seq<bool>, n: nat, hashes: set<string>)
    requires n <= |images| == |before|
  {
    forall h :: h in hashes <==> h != "" && exists j :: 0 <= j < n && before[j] && images[j].sha == Some(h)
  }

  ghost predicate EmbeddingsSeen(images: seq<Image>, verdicts: seq<Verdict>, embeddings: seq<Embedding>)
    requires |verdicts| <= |images|
  {
    forall e :: e in embeddings <==>
      exists k :: 0 <= k < |verdicts| && verdicts[k] == Kept && images[k].embedding == Some(e)
  }

  /** Everything the loop knows after judging `|verdicts|` pages. */
  ghost predicate PassState(similarity: Similarity, images: seq<Image>, before: seq<bool>, verdicts: seq<Verdict>,
                            hashes: set<string>, embeddings: seq<Embedding>) {
    && Judged(similarity, images, before, verdicts)
    && HashesSeen(images, before, |verdicts|, hashes)
    && EmbeddingsSeen(images, verdicts, embeddings)
  }

  lemma SeenMeansNear(similarity: Similarity, images: seq<Image>, verdicts: seq<Verdict>, embeddings: seq<Embedding>)
    requires |verdicts| < |images| && EmbeddingsSeen(images, verdicts, embeddings)
    ensures NearKept(similarity, images, verdicts, |verdicts|)
       <==> (images[|verdicts|].embedding.Some?
             && exists e ::
               e in embeddings && similarity(e, images[|verdicts|].embedding.value) > NEAR_DUPLICATE_SIMILARITY)
  {
    var page := images[|verdicts|];
    if page.embedding.Some? {
      if e :| e in embeddings && similarity(e, page.embedding.value) > NEAR_DUPLICATE_SIMILARITY {
        var k :| 0 <= k < |verdicts| && verdicts[k] == Kept && images[k].embedding == Some(e);
        assert Near(similarity, images[k], page);
      }
      if k :| 0 <= k < |verdicts| && verdicts[k] == Kept && Near(similarity, images[k], page) {
        assert images[k].embedding.value in embeddings;
      }
    }
  }

  /** The loop body for one page, apart from the writes to the page. */
  method JudgePage(similarity: Similarity, ghost images: seq<Image>, ghost before: seq<bool>,
                   ghost verdicts: seq<Verdict>,
                   page: Image, selected: bool, hashes: set<string>, embeddings: seq<Embedding>)
    returns (v: Verdict, hashes': set<string>, embeddings': seq<Embedding>)
    requires PassState(similarity, images, before, verdicts, hashes, embeddings)
    requires |verdicts| < |images| && page == images[|verdicts|] && selected == before[|verdicts|]
    ensures PassState(similarity, images, before, verdicts + [v], hashes', embeddings')
    ensures v == Unselected <==> !selected
  {
    SeenMeansNear(similarity, images, verdicts, embeddings);
    hashes', embeddings' := hashes, embeddings;
    if !selected {
      v := Unselected;
    } else {
      var repeated := false;
      if page.sha.Some? && page.sha.value != "" {
        repeated := page.sha.value in hashes;
        hashes' := hashes + {page.sha.value};
      }
      if repeated {
        v := SameImageDropped;
      } else if page.embedding.Some? && exists e ::
        e in embeddings && similarity(e, page.embedding.value) > NEAR_DUPLICATE_SIMILARITY {
        v := NearDropped;
      } else {
        v := Kept;
        if page.embedding.Some? {
          embeddings' := embeddings + [page.embedding.value];
        }
      }
    }
  }

  /** Unsets the flag of a dropped page and notes why. */
  method Apply(page: PageProbe, v: Verdict)
    requires v == Unselected <==> !page.selectedForLlm
    modifies page
    ensures page.selectedForLlm <==> v == Kept
    ensures page.candidateReasons == old(page.candidateReasons) + ReasonsOf(v)
  {
    if v == SameImageDropped {
      page.selectedForLlm := false;
      page.candidateReasons := page.candidateReasons + ["duplicate_image_sha"];
    } else if v == NearDropped {
      page.selectedForLlm := false;
      page.candidateReasons := page.candidateReasons + ["near_duplicate_embedding"];
    }
  }

  /** The loop body for one page. */
  method DedupePage(page: PageProbe, similarity: Similarity, ghost images: seq<Image>, ghost before: seq<bool>,
                    ghost verdicts: seq<Verdict>,
                    hashes: set<string>, embeddings: seq<Embedding>)
    returns (ghost v: Verdict, hashes': set<string>, embeddings': seq<Embedding>)
    requires PassState(similarity, images, before, verdicts, hashes, embeddings)
    requires |verdicts| < |images| && ImageOf(page) == images[|verdicts|] && page.selectedForLlm == before[|verdicts|]
    modifies page
    ensures PassState(similarity, images, before, verdicts + [v], hashes', embeddings')
    ensures page.selectedForLlm <==> v == Kept
    ensures page.candidateReasons == old(page.candidateReasons) + ReasonsOf(v)
  {
    var verdict;
    verdict, hashes', embeddings' := JudgePage(similarity, images, before, verdicts, ImageOf(page),
                                               page.selectedForLlm, hashes, embeddings);
    Apply(page, verdict);
    v := verdict;
  }

  /** Page `i` shows its verdict once it has one, and is as it was before. */
  ghost predicate Shows(page: PageProbe, i: nat, before: seq<bool>, reasons: seq<seq<string>>, verdicts: seq<Verdict>)
    requires i < |before| && i < |reasons|
    reads page
  {
    if i < |verdicts| then
      && (page.selectedForLlm <==> verdicts[i] == Kept)
      && page.candidateReasons == reasons[i] + ReasonsOf(verdicts[i])
    else
      page.selectedForLlm == before[i] && page.candidateReasons == reasons[i]
  }

  method DedupePages(pages: seq<PageProbe>, similarity: Similarity) returns (ghost verdicts: seq<Verdict>)
    requires Distinct(pages)
    modifies pages
    ensures |verdicts| == |pages| && Judged(similarity, Images(pages), old(Flags(pages)), verdicts)
    ensures forall i :: 0 <= i < |pages| ==> (pages[i].selectedForLlm <==> verdicts[i] == Kept)
    ensures forall i :: 0 <= i < |pages| ==>
              pages[i].candidateReasons
                == old(pages[i].candidateReasons)
                   + if verdicts[i] == SameImageDropped then ["duplicate_image_sha"]
                     else if verdicts[i] == NearDropped then ["near_duplicate_embedding"] else []
  {
    ghost var images, before := Images(pages), Flags(pages);
    ghost var reasons := seq(|pages|, i requires 0 <= i < |pages| reads pages => pages[i].candidateReasons);
    var seenImageHashes: set<string> := {};
    var seenEmbeddings: seq<Embedding> := [];
    verdicts := [];
    for n := 0 to |pages|
      invariant |verdicts| == n
      invariant PassState(similarity, images, before, verdicts, seenImageHashes, seenEmbeddings)
      invariant forall i :: 0 <= i < |pages| ==> Shows(pages[i], i, before, reasons, verdicts)
    {
      ghost var v;
      v, seenImageHashes, seenEmbeddings :=
        DedupePage(pages[n], similarity, images, before, verdicts, seenImageHashes, seenEmbeddings);
      verdicts := verdicts + [v];
    }
  }

  /** Selection followed by dedupe: from any non-empty list at least one page reaches the model. */
  method ApplyGate(pages: seq<PageProbe>, similarity: Similarity)
    returns (ghost chosen: set<nat>, ghost verdicts: seq<Verdict>)
    requires Distinct(pages)
    modifies pages
    ensures IsSelection(pages, chosen) && |verdicts| == |pages|
    ensures Judged(similarity, Images(pages), seq(|pages|, i => i in chosen), verdicts)
    ensures forall i :: 0 <= i < |pages| ==> (pages[i].selectedForLlm <==> verdicts[i] == Kept)
    ensures |pages| > 0 ==> exists k :: 0 <= k < |pages| && pages[k].selectedForLlm
  {
    chosen := SelectPages(pages);
    assert Flags(pages) == seq(|pages|, i => i in chosen);
    verdicts := DedupePages(pages, similarity);
    if |pages| > 0 {
      var i := SelectionNotEmpty(pages, chosen);
      var k := SomePageKept(similarity, Images(pages), seq(|pages|, i => i in chosen), verdicts, i);
      assert pages[k].selectedForLlm;
    }
  }
}
