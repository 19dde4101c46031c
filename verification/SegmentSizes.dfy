/** Inferring the sizes of the segments of a file from its history
    (src/history/NzbHistoryRegenerator.cpp). */
module SegmentSizes {
  import opened Arithmetic

  datatype File = File(totalArticles: int, sizeBytes: int)

  predicate IsPlausible(f: File, full: int) {
    && f.totalArticles > 0 && f.sizeBytes > 0 && full > 0
    && full >= CeilDiv(f.sizeBytes, f.totalArticles)
    && (if f.totalArticles == 1 then f.sizeBytes <= full else f.sizeBytes > full * (f.totalArticles - 1))
  }

  function Largest(articles: seq<int>): int {
    if articles == [] then 0 else Max(Largest(articles[..|articles| - 1]), articles[|articles| - 1])
  }

  /** The size of a full article, from the sizes on record, the size the post used if it
      is known, a hint, and the size configured today. */
  function InferFull(f: File, articles: seq<int>, hint: int, hintIsExact: bool, configured: int): int {
    if hintIsExact then hint
    else
      var full := Max(Largest(articles), CeilDiv(f.sizeBytes, f.totalArticles));
      var full := if IsPlausible(f, hint) && hint > full then hint else full;
      var full := if IsPlausible(f, configured) && configured > full then configured else full;
      if full <= 0 then configured else full
  }

  method InferFullArticleBytes(f: File, articles: seq<int>, hint: int, hintIsExact: bool, configured: int)
    returns (full: int)
    ensures full == InferFull(f, articles, hint, hintIsExact, configured)
  {
    if hintIsExact {
      return hint;
    }
    var historyMax := 0;
    for i := 0 to |articles|
      invariant historyMax == Largest(articles[..i])
    {
      assert articles[..i + 1][..i] == articles[..i];
      if articles[i] > historyMax {
        historyMax := articles[i];
      }
    }
    assert articles[..|articles|] == articles;
    full := Max(historyMax, CeilDiv(f.sizeBytes, f.totalArticles));
    if IsPlausible(f, hint) && hint > full {
      full := hint;
    }
    if IsPlausible(f, configured) && configured > full {
      full := configured;
    }
    if full <= 0 {
      full := configured;
    }
  }

  function InferSegment(f: File, part: int, full: int): int {
    if f.totalArticles <= 0 then full
    else if part == f.totalArticles && f.sizeBytes > 0 then
      if f.totalArticles == 1 then f.sizeBytes
      else
        var last := f.sizeBytes - full * (f.totalArticles - 1);
        if last > 0 then last else full
    else full
  }

  /** The sizes inferred for the first `n` parts, added up. */
  function Inferred(f: File, full: int, n: nat): int {
    if n == 0 then 0 else Inferred(f, full, n - 1) + InferSegment(f, n, full)
  }

  /** The file was cut into `totalArticles` parts of `size` bytes, the last one shorter. */
  predicate CutWith(f: File, size: int) {
    && f.totalArticles > 0 && size > 0
    && size * (f.totalArticles - 1) < f.sizeBytes <= size * f.totalArticles
  }

  lemma Times(a: int, b: int, c: int)
    requires c >= 0 && a <= b
    ensures a * c <= b * c
  {
    var d := b - a;
    assert b * c == a * c + d * c;
    NotNegative(d, c);
  }

  lemma {:induction false} NotNegative(a: int, b: int)
    requires a >= 0 && b >= 0
    ensures a * b >= 0
  {
    if a > 0 {
      NotNegative(a - 1, b);
      assert a * b == (a - 1) * b + b;
    }
  }

  /** A size the file can have been cut with, and one not larger that covers the file, are
      both plausible. */
  lemma SmallerIsPlausible(f: File, size: int, full: int)
    requires CutWith(f, size) && 0 < full <= size && full >= CeilDiv(f.sizeBytes, f.totalArticles)
    ensures f.totalArticles > 1 ==> IsPlausible(f, full)
    ensures f.totalArticles == 1 ==> full >= f.sizeBytes && IsPlausible(f, full)
  {
    Times(full, size, f.totalArticles - 1);
  }

  lemma CutCovers(f: File, size: int)
    requires CutWith(f, size)
    ensures 0 < CeilDiv(f.sizeBytes, f.totalArticles) <= size
  {
    var q := CeilDiv(f.sizeBytes, f.totalArticles);
    if q > size {
      Times(size, q - 1, f.totalArticles);
    }
    if q <= 0 {
      Times(q, 0, f.totalArticles);
    }
    NotNegative(size, f.totalArticles - 1);
  }

  lemma {:induction false} LargestIsBounded(articles: seq<int>, size: int)
    requires size >= 0 && forall a | a in articles :: a <= size
    ensures 0 <= Largest(articles) <= size
  {
    if articles != [] {
      var init, last := articles[..|articles| - 1], articles[|articles| - 1];
      assert last in articles;
      forall a | a in init ensures a <= size {
        assert a in articles;
      }
      LargestIsBounded(init, size);
    }
  }

  /** If the file was cut with some size and no recorded article exceeds it, the inferred
      size is one the file can have been cut with, whatever the hint and the settings. */
  lemma InferredIsPlausible(f: File, articles: seq<int>, hint: int, configured: int, size: int)
    requires CutWith(f, size) && forall a | a in articles :: a <= size
    ensures IsPlausible(f, InferFull(f, articles, hint, false, configured))
  {
    LargestIsBounded(articles, size);
    CutCovers(f, size);
    SmallerIsPlausible(f, size, Max(Largest(articles), CeilDiv(f.sizeBytes, f.totalArticles)));
  }

  lemma {:induction false} FullPartsAddUp(f: File, full: int, n: nat)
    requires n < f.totalArticles
    ensures Inferred(f, full, n) == full * n
  {
    if n > 0 {
      FullPartsAddUp(f, full, n - 1);
      assert full * n == full * (n - 1) + full;
    }
  }

  /** A plausible size conserves the file: its segments are positive and add up to it. */
  lemma PlausibleConserves(f: File, full: int)
    requires IsPlausible(f, full)
    ensures Inferred(f, full, f.totalArticles) == f.sizeBytes
    ensures forall part | 1 <= part <= f.totalArticles :: InferSegment(f, part, full) > 0
  {
    FullPartsAddUp(f, full, f.totalArticles - 1);
  }

  /** For a file of several parts, the segments add up to it if and only if the full size
      leaves something for the last one. */
  lemma ConservesIff(f: File, full: int)
    requires f.totalArticles > 1 && f.sizeBytes > 0 && full > 0
    ensures Inferred(f, full, f.totalArticles) == f.sizeBytes <==> f.sizeBytes > full * (f.totalArticles - 1)
  {
    FullPartsAddUp(f, full, f.totalArticles - 1);
    assert full * f.totalArticles == full * (f.totalArticles - 1) + full;
  }

  /** The sizes written for a file of a post that was really cut that way conserve it. */
  lemma InferenceConserves(f: File, articles: seq<int>, hint: int, configured: int, size: int)
    requires CutWith(f, size) && forall a | a in articles :: a <= size
    ensures var full := InferFull(f, articles, hint, false, configured);
            && Inferred(f, full, f.totalArticles) == f.sizeBytes
            && forall part | 1 <= part <= f.totalArticles :: InferSegment(f, part, full) > 0
  {
    InferredIsPlausible(f, articles, hint, configured, size);
    PlausibleConserves(f, InferFull(f, articles, hint, false, configured));
  }

  /** When an article was recorded at its full size and neither the hint nor the settings
      offer a larger one, the size inferred is exactly the true one. */
  lemma FullArticleDecides(f: File, articles: seq<int>, hint: int, configured: int, size: int)
    requires CutWith(f, size) && size in articles && forall a | a in articles :: a <= size
    requires hint <= size && configured <= size
    ensures InferFull(f, articles, hint, false, configured) == size
  {
    LargestIsBounded(articles, size);
    LargestIsReached(articles, size);
    CutCovers(f, size);
  }

  lemma {:induction false} LargestIsReached(articles: seq<int>, a: int)
    requires a in articles
    ensures Largest(articles) >= a
  {
    if articles[|articles| - 1] != a {
      LargestIsReached(articles[..|articles| - 1], a);
    }
  }

  /** One of the sizes the result may be: the largest on record, the least that covers the
      file, and a plausible hint or setting. */
  predicate IsCandidate(f: File, articles: seq<int>, hint: int, configured: int, size: int) {
    || size in articles || size == CeilDiv(f.sizeBytes, f.totalArticles)
    || (size == hint && IsPlausible(f, hint)) || (size == configured && IsPlausible(f, configured))
  }

  /** A hint known to be exact is taken as it is; otherwise the largest candidate is taken,
      and the size configured today when no candidate is positive. */
  lemma LargestCandidateIsTaken(f: File, articles: seq<int>, hint: int, configured: int)
    ensures InferFull(f, articles, hint, true, configured) == hint
    ensures var full := InferFull(f, articles, hint, false, configured);
            if exists size :: size > 0 && IsCandidate(f, articles, hint, configured, size) then
              && full > 0 && IsCandidate(f, articles, hint, configured, full)
              && forall size | IsCandidate(f, articles, hint, configured, size) :: size <= full
            else full == configured
  {
    LargestIs(articles);
    assert IsCandidate(f, articles, hint, configured, CeilDiv(f.sizeBytes, f.totalArticles));
    if Largest(articles) in articles {
      assert IsCandidate(f, articles, hint, configured, Largest(articles));
    }
    assert IsPlausible(f, hint) ==> IsCandidate(f, articles, hint, configured, hint);
    assert IsPlausible(f, configured) ==> IsCandidate(f, articles, hint, configured, configured);
  }

  lemma {:induction false} LargestIs(articles: seq<int>)
    ensures Largest(articles) == 0 || Largest(articles) in articles
    ensures Largest(articles) >= 0 && forall a | a in articles :: a <= Largest(articles)
  {
    if articles != [] {
      LargestIs(articles[..|articles| - 1]);
      assert articles == articles[..|articles| - 1] + [articles[|articles| - 1]];
    }
  }

  /** Every part has the full size, but for the last one of a file of known size: it has
      what the others leave, if they leave anything. */
  lemma SegmentIs(f: File, part: int, full: int)
    ensures f.totalArticles <= 0 || part != f.totalArticles || f.sizeBytes <= 0 ==> InferSegment(f, part, full) == full
    ensures f.totalArticles > 0 && f.sizeBytes > 0 && part == f.totalArticles && full * (part - 1) < f.sizeBytes ==>
              InferSegment(f, part, full) + full * (part - 1) == f.sizeBytes
  {
    if part == 1 {
      assert full * (part - 1) == 0;
    }
  }
}
