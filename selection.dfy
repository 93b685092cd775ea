/** What `ConsensusPipeline.determine_most_accurate` computes, stated as
    functions: the pair scores, each candidate's average, and the first
    candidate whose average is maximal; and the properties of that choice. */
module Selection {

  /** The string similarity (`Levenshtein.ratio`), a foreign function given
      as a parameter; exact reals stand for its floats. */
  type Similarity = (string, string) -> real

  /** Lemmas that need it assume the usual shape of a similarity on the
      strings at hand: values in [0, 1] and symmetric. */
  ghost predicate WellFormedOn(sim: Similarity, texts: seq<string>)
  {
    forall i, j :: 0 <= i < |texts| && 0 <= j < |texts| ==>
      0.0 <= sim(texts[i], texts[j]) <= 1.0 && sim(texts[i], texts[j]) == sim(texts[j], texts[i])
  }

  function Min(a: int, b: int): int { if a <= b then a else b }
  function Max(a: int, b: int): int { if a <= b then b else a }

  /** `scores.get((min(i, j), max(i, j)), 0)`: only pairs `i < j` were
      scored, always with the lower index's text first; the self pair has
      no entry and contributes 0. */
  function PairScore(sim: Similarity, texts: seq<string>, i: nat, j: nat): real
    requires i < |texts| && j < |texts|
  {
    var lo, hi := Min(i, j), Max(i, j);
    if lo < hi then sim(texts[lo], texts[hi]) else 0.0
  }

  /** The sum of candidate `i`'s pair scores against candidates `0..m`. */
  function Total(sim: Similarity, texts: seq<string>, i: nat, m: nat): real
    requires i < |texts| && m <= |texts|
  {
    if m == 0 then 0.0 else Total(sim, texts, i, m - 1) + PairScore(sim, texts, i, m - 1)
  }

  /** Candidate `i`'s entry of `avg_scores`: its total over `len(texts) - 1`. */
  function Average(sim: Similarity, texts: seq<string>, i: nat): real
    requires 2 <= |texts| && i < |texts|
  {
    Total(sim, texts, i, |texts|) / (|texts| - 1) as real
  }

  /** `avg_scores`, in candidate order. */
  function Averages(sim: Similarity, texts: seq<string>): seq<real>
    requires 2 <= |texts|
  {
    seq(|texts|, i requires 0 <= i < |texts| => Average(sim, texts, i))
  }

  /** `s.index(max(s))`: the first position holding the largest value. */
  function FirstMaxIndex(s: seq<real>): (k: nat)
    requires |s| > 0
    ensures k < |s|
    ensures forall j :: 0 <= j < |s| ==> s[j] <= s[k]
    ensures forall j :: 0 <= j < k ==> s[j] < s[k]
  {
    if |s| == 1 then 0
    else
      var k := FirstMaxIndex(s[..|s| - 1]);
      if s[k] < s[|s| - 1] then |s| - 1 else k
  }

  /** A position that holds a maximum and is preceded only by smaller
      values is the one `FirstMaxIndex` picks. */
  lemma FirstMaxIndexUnique(s: seq<real>, k: nat)
    requires k < |s|
    requires forall j :: 0 <= j < |s| ==> s[j] <= s[k]
    requires forall j :: 0 <= j < k ==> s[j] < s[k]
    ensures FirstMaxIndex(s) == k
  {
  }

  /** The index `determine_most_accurate` selects: no candidate has a larger
      average, and every earlier candidate has a strictly smaller one. */
  function MostAccurateIndex(sim: Similarity, texts: seq<string>): (k: nat)
    requires 2 <= |texts|
    ensures k < |texts|
    ensures forall j :: 0 <= j < |texts| ==> Average(sim, texts, j) <= Average(sim, texts, k)
    ensures forall j :: 0 <= j < k ==> Average(sim, texts, j) < Average(sim, texts, k)
  {
    var avgs := Averages(sim, texts);
    var k := FirstMaxIndex(avgs);
    assert forall j :: 0 <= j < |texts| ==> avgs[j] == Average(sim, texts, j);
    k
  }

  /** The text `determine_most_accurate` returns: always one of the candidates. */
  function MostAccurate(sim: Similarity, texts: seq<string>): (best: string)
    requires 2 <= |texts|
    ensures best in texts
  {
    texts[MostAccurateIndex(sim, texts)]
  }

  /** Partial sums of a symmetric similarity: every other candidate's
      similarity to candidate `i` is counted once, whichever order the pair
      was scored in, and candidate `i` itself contributes nothing. */
  function OtherSimilarity(sim: Similarity, texts: seq<string>, i: nat, m: nat): real
    requires i < |texts| && m <= |texts|
  {
    if m == 0 then 0.0
    else OtherSimilarity(sim, texts, i, m - 1) + (if m - 1 == i then 0.0 else sim(texts[i], texts[m - 1]))
  }

  /** With a symmetric similarity, a candidate's total is the sum of its
      similarities to every other candidate, and its average lies in [0, 1]. */
  lemma {:induction false} TotalIsSimilarityToOthers(sim: Similarity, texts: seq<string>, i: nat, m: nat)
    requires i < |texts| && m <= |texts|
    requires WellFormedOn(sim, texts)
    ensures Total(sim, texts, i, m) == OtherSimilarity(sim, texts, i, m)
    ensures 0.0 <= Total(sim, texts, i, m) <= (m - (if i < m then 1 else 0)) as real
  {
    if m > 0 {
      TotalIsSimilarityToOthers(sim, texts, i, m - 1);
    }
  }

  lemma AverageInUnitInterval(sim: Similarity, texts: seq<string>, i: nat)
    requires 2 <= |texts| && i < |texts|
    requires WellFormedOn(sim, texts)
    ensures 0.0 <= Average(sim, texts, i) <= 1.0
  {
    TotalIsSimilarityToOthers(sim, texts, i, |texts|);
    var n := (|texts| - 1) as real;
    var t := Total(sim, texts, i, |texts|);
    assert t <= n;
    assert t / n <= n / n;
  }

  /** With two candidates both averages are the one pair score, so the tie
      goes to the first candidate, whatever the similarity. */
  lemma TwoCandidatesPickFirst(sim: Similarity, a: string, b: string)
    ensures MostAccurateIndex(sim, [a, b]) == 0
    ensures MostAccurate(sim, [a, b]) == a
  {
    var texts := [a, b];
    assert Total(sim, texts, 0, 1) == 0.0 && Total(sim, texts, 1, 1) == sim(a, b);
    assert Total(sim, texts, 0, 2) == sim(a, b) == Total(sim, texts, 1, 2);
    assert Average(sim, texts, 0) == Average(sim, texts, 1);
  }

  /** The totals when every candidate but the one at `k` holds the text
      `v` and the similarity of `v` to the outsider is `s`. */
  lemma {:induction false} OutlierTotals(sim: Similarity, texts: seq<string>, k: nat, v: string, i: nat, m: nat)
    requires k < |texts| && i < |texts| && m <= |texts|
    requires forall j :: 0 <= j < |texts| && j != k ==> texts[j] == v
    requires sim(v, v) == 1.0
    requires sim(v, texts[k]) == sim(texts[k], v)
    ensures i == k ==>
      Total(sim, texts, i, m) == (m - (if k < m then 1 else 0)) as real * sim(v, texts[k])
    ensures i != k ==>
      Total(sim, texts, i, m) ==
        (m - (if i < m then 1 else 0) - (if k < m then 1 else 0)) as real + (if k < m then sim(v, texts[k]) else 0.0)
  {
    if m > 0 {
      OutlierTotals(sim, texts, k, v, i, m - 1);
      var s := sim(v, texts[k]);
      if i == k {
        var c := (m - 1 - (if k < m - 1 then 1 else 0)) as real;
        if m - 1 != k {
          assert PairScore(sim, texts, i, m - 1) == s;
          assert c * s + s == (c + 1.0) * s;
        }
      }
    }
  }

  lemma ProductOfPositives(a: real, b: real)
    requires 0.0 < a && 0.0 < b
    ensures 0.0 < a * b
  {
  }

  /** A candidate that disagrees with all the others, which all agree with
      each other, is never selected when there are at least three
      candidates: the agreeing text is returned. With three candidates this
      is "two engines outvote the third". */
  lemma OutlierLoses(sim: Similarity, texts: seq<string>, k: nat, v: string)
    requires 3 <= |texts| && k < |texts|
    requires forall j :: 0 <= j < |texts| && j != k ==> texts[j] == v
    requires sim(v, v) == 1.0
    requires sim(v, texts[k]) == sim(texts[k], v) < 1.0
    ensures MostAccurateIndex(sim, texts) != k
    ensures MostAccurate(sim, texts) == v
  {
    var n := |texts|;
    var s := sim(v, texts[k]);
    var other := if k == 0 then 1 else 0;
    OutlierTotals(sim, texts, k, v, k, n);
    OutlierTotals(sim, texts, k, v, other, n);
    var d := (n - 1) as real;
    assert Total(sim, texts, k, n) == d * s;
    assert Total(sim, texts, other, n) == (d - 1.0) + s;
    OutlierAverageIsLower(d, s);
    assert Average(sim, texts, k) < Average(sim, texts, other);
  }

  lemma OutlierAverageIsLower(d: real, s: real)
    requires 2.0 <= d && s < 1.0
    ensures (d * s) / d < ((d - 1.0) + s) / d
  {
    ProductOfPositives(d - 1.0, 1.0 - s);
    assert d * s < (d - 1.0) + s;
  }

  /** The scenario "Hello Wrold", "Hello World", "Hello World": the two
      agreeing engines outvote the typo, for any similarity that scores a
      text against itself 1, symmetrically, and the two spellings below 1. */
  lemma TypoIsOutvoted(sim: Similarity)
    requires sim("Hello World", "Hello World") == 1.0
    requires sim("Hello World", "Hello Wrold") == sim("Hello Wrold", "Hello World") < 1.0
    ensures MostAccurate(sim, ["Hello Wrold", "Hello World", "Hello World"]) == "Hello World"
  {
    var texts := ["Hello Wrold", "Hello World", "Hello World"];
    OutlierLoses(sim, texts, 0, "Hello World");
  }
}
