// The fuzzy matcher of the spreadsheet import (book-store-api/routes/importRoutes.js):
// a one-row Levenshtein table, the similarity score built on it, and the
// threshold best-match search over a catalogue.
module Similarity {
  import opened Wrappers
  import opened Text

  function Min3(a: nat, b: nat, c: nat): (m: nat)
    ensures m <= a && m <= b && m <= c && (m == a || m == b || m == c)
  {
    if a <= b && a <= c then a else if b <= c then b else c
  }

  /**
   * The edit distance of the first `i` characters of `a` and the first `j`
   * characters of `b`: insertions, deletions and substitutions, a matching
   * pair of last characters costing nothing.
   */
  function Dist(a: string, b: string, i: nat, j: nat): nat
    requires i <= |a| && j <= |b|
    decreases i + j
  {
    if i == 0 then j
    else if j == 0 then i
    else if a[i - 1] == b[j - 1] then Dist(a, b, i - 1, j - 1)
    else Min3(Dist(a, b, i - 1, j - 1), Dist(a, b, i, j - 1), Dist(a, b, i - 1, j)) + 1
  }

  /** The recurrence of the table for an inner cell. */
  lemma {:induction false} DistStep(a: string, b: string, i: nat, j: nat)
    requires 0 < i <= |a| && 0 < j <= |b|
    ensures Dist(a, b, i, j) == if a[i - 1] == b[j - 1] then Dist(a, b, i - 1, j - 1)
      else Min3(Dist(a, b, i - 1, j - 1), Dist(a, b, i, j - 1), Dist(a, b, i - 1, j)) + 1
  {
  }

  /** The cell the inner loop computes from its three neighbours is the table entry. */
  lemma {:induction false} CellValue(a: string, b: string, i: nat, j: nat, diagonal: nat, left: nat, up: nat)
    requires 0 < i <= |a| && 0 < j <= |b|
    requires diagonal == Dist(a, b, i - 1, j - 1) && left == Dist(a, b, i, j - 1) && up == Dist(a, b, i - 1, j)
    ensures Dist(a, b, i, j) == if a[i - 1] == b[j - 1] then diagonal else Min3(diagonal, left, up) + 1
  {
  }

  /** The Levenshtein distance of two whole strings. */
  function EditDistance(a: string, b: string): nat {
    Dist(a, b, |a|, |b|)
  }

  /** No prefix pair is further apart than the longer of the two prefixes. */
  lemma {:induction false} DistAtMostLonger(a: string, b: string, i: nat, j: nat)
    requires i <= |a| && j <= |b|
    ensures Dist(a, b, i, j) <= if i >= j then i else j
    decreases i + j
  {
    if i > 0 && j > 0 {
      DistAtMostLonger(a, b, i - 1, j - 1);
    }
  }

  /** A prefix pair is at least as far apart as their lengths differ. */
  lemma {:induction false} DistAtLeastGap(a: string, b: string, i: nat, j: nat)
    requires i <= |a| && j <= |b|
    ensures Dist(a, b, i, j) >= if i >= j then i - j else j - i
    decreases i + j
  {
    if i > 0 && j > 0 {
      DistAtLeastGap(a, b, i - 1, j - 1);
      DistAtLeastGap(a, b, i, j - 1);
      DistAtLeastGap(a, b, i - 1, j);
    }
  }

  /** Equal strings are at distance 0. */
  lemma {:induction false} DistOfSame(a: string, i: nat)
    requires i <= |a|
    ensures Dist(a, a, i, i) == 0
  {
    if i > 0 {
      DistOfSame(a, i - 1);
    }
  }

  /** `costs` holds row `i` of the table: the distances of `s1[..i]` to every prefix of `s2`. */
  ghost predicate HoldsRow(s1: string, s2: string, costs: array<nat>, i: nat)
    requires i <= |s1| && costs.Length == |s2| + 1
    reads costs
  {
    forall k {:trigger costs[k]} :: 0 <= k <= |s2| ==> costs[k] == Dist(s1, s2, i, k)
  }

  /** The pass of the inner loop of `stringSimilarity` for `i == 0`: `costs[j] = j`. */
  method FirstRow(s1: string, s2: string, costs: array<nat>)
    requires costs.Length == |s2| + 1
    modifies costs
    ensures HoldsRow(s1, s2, costs, 0)
  {
    var j := 0;
    while j <= |s2|
      invariant 0 <= j <= |s2| + 1
      invariant forall k {:trigger costs[k]} :: 0 <= k < j ==> costs[k] == Dist(s1, s2, 0, k)
    {
      costs[j] := j;
      j := j + 1;
    }
  }

  /**
   * Row `i` half computed in place over row `i - 1`: the cells before `j - 1`
   * hold row `i`, the cells from `j - 1` on still hold row `i - 1`.
   */
  ghost predicate RowInProgress(a: string, b: string, row: seq<nat>, i: nat, j: nat)
    requires 0 < i <= |a| && |row| == |b| + 1
  {
    (forall k :: 0 <= k < j - 1 && k <= |b| ==> row[k] == Dist(a, b, i, k))
    && (forall k :: j - 1 <= k <= |b| && 0 <= k ==> row[k] == Dist(a, b, i - 1, k))
  }

  /** Storing the entry to the left in cell `j - 1` advances the in-place row by one cell. */
  lemma {:induction false} RowStep(a: string, b: string, row: seq<nat>, i: nat, j: nat, left: nat)
    requires 0 < i <= |a| && |row| == |b| + 1 && 0 < j <= |b|
    requires RowInProgress(a, b, row, i, j) && left == Dist(a, b, i, j - 1)
    ensures row[j - 1] == Dist(a, b, i - 1, j - 1) && row[j] == Dist(a, b, i - 1, j)
    ensures RowInProgress(a, b, row[j - 1 := left], i, j + 1)
  {
  }

  /** Once every cell but the last is rewritten, storing the last entry completes row `i`. */
  lemma {:induction false} RowDone(a: string, b: string, row: seq<nat>, i: nat, last: nat)
    requires 0 < i <= |a| && |row| == |b| + 1
    requires RowInProgress(a, b, row, i, |b| + 1) && last == Dist(a, b, i, |b|)
    ensures forall k :: 0 <= k <= |b| ==> row[|b| := last][k] == Dist(a, b, i, k)
  {
  }

  /**
   * The pass of the inner loop of `stringSimilarity` for `i > 0`, followed by
   * the store of `lastValue` in the last cell: row `i` is computed in place
   * from row `i - 1`, `lastValue` carrying the entry to the left and
   * `costs[j - 1]` the one diagonally above until it is overwritten.
   */
  method NextRow(s1: string, s2: string, costs: array<nat>, i: nat)
    requires 0 < i <= |s1| && costs.Length == |s2| + 1
    requires HoldsRow(s1, s2, costs, i - 1)
    modifies costs
    ensures HoldsRow(s1, s2, costs, i)
  {
    var n := |s2|;
    ghost var row := costs[..];
    var lastValue: nat := i;
    var j := 0;
    while j <= n
      invariant 0 <= j <= n + 1
      invariant costs[..] == row && |row| == n + 1
      invariant lastValue == Dist(s1, s2, i, if j == 0 then 0 else j - 1)
      invariant RowInProgress(s1, s2, row, i, j)
    {
      if j > 0 {
        RowStep(s1, s2, row, i, j, lastValue);
        var diagonal, up := costs[j - 1], costs[j];
        assert diagonal == row[j - 1] && up == row[j];
        var newValue := diagonal;
        if s1[i - 1] != s2[j - 1] {
          newValue := Min3(diagonal, lastValue, up) + 1;
        }
        CellValue(s1, s2, i, j, diagonal, lastValue, up);
        costs[j - 1] := lastValue;
        row := row[j - 1 := lastValue];
        lastValue := newValue;
      }
      j := j + 1;
    }
    RowDone(s1, s2, row, i, lastValue);
    costs[n] := lastValue;
    assert costs[..] == row[n := lastValue];
  }

  /**
   * The distance loop of `stringSimilarity`: after row `i` the last cell of
   * `costs` holds the distance of `s1[..i]` and `s2`.
   */
  method Levenshtein(s1: string, s2: string) returns (d: nat)
    ensures d == EditDistance(s1, s2)
  {
    var costs := new nat[|s2| + 1];
    var i := 0;
    while i <= |s1|
      invariant 0 <= i <= |s1| + 1
      invariant i > 0 ==> HoldsRow(s1, s2, costs, i - 1)
    {
      if i == 0 {
        FirstRow(s1, s2, costs);
      } else {
        NextRow(s1, s2, costs, i);
      }
      i := i + 1;
    }
    d := costs[|s2|];
  }

  /** `str.toLowerCase().trim()`. */
  function Clean(s: string): string {
    Trim(ToLower(s))
  }

  /**
   * The score `stringSimilarity` gives two cleaned strings. The source's
   * `longer.length === 0` test cannot fire here: two empty strings are equal.
   */
  function Similarity(s1: string, s2: string): real {
    if s1 == s2 then 1.0
    else
      var longer := if |s1| > |s2| then s1 else s2;
      var shorter := if |s1| > |s2| then s2 else s1;
      if Contains(longer, shorter) || Contains(shorter, longer) then
        (|shorter| as real) / (|longer| as real) + 0.3
      else
        ((|longer| - EditDistance(s1, s2)) as real) / (|longer| as real)
  }

  /** `stringSimilarity(str1, str2)`: both texts lower-cased and trimmed, then scored. */
  function Score(str1: string, str2: string): real {
    Similarity(Clean(str1), Clean(str2))
  }

  /** Two different cleaned strings have a non-empty longer one. */
  lemma {:induction false} LongerNonEmpty(s1: string, s2: string)
    requires s1 != s2
    ensures |if |s1| > |s2| then s1 else s2| > 0
  {
  }

  /** The body of `stringSimilarity` after cleaning: the distance comes from the loop. */
  method CompareCleaned(s1: string, s2: string) returns (score: real)
    ensures score == Similarity(s1, s2)
  {
    if s1 == s2 {
      return 1.0;
    }
    var longer := if |s1| > |s2| then s1 else s2;
    var shorter := if |s1| > |s2| then s2 else s1;
    LongerNonEmpty(s1, s2);
    if Contains(longer, shorter) || Contains(shorter, longer) {
      return (|shorter| as real) / (|longer| as real) + 0.3;
    }
    var dist := Levenshtein(s1, s2);
    score := ((|longer| - dist) as real) / (|longer| as real);
  }

  /** `stringSimilarity(str1, str2)` as the import runs it. */
  method StringSimilarity(str1: string, str2: string) returns (score: real)
    ensures score == Score(str1, str2)
  {
    score := CompareCleaned(Clean(str1), Clean(str2));
  }

  /** Texts that agree after lower-casing and trimming score exactly 1. */
  lemma {:induction false} ScoreOfEqual(str1: string, str2: string)
    requires Clean(str1) == Clean(str2)
    ensures Score(str1, str2) == 1.0
  {
  }

  /** When one cleaned string contains the other, the score lies in [0.3, 1.3). */
  lemma {:induction false} ContainmentRange(s1: string, s2: string)
    requires s1 != s2 && (Contains(s1, s2) || Contains(s2, s1))
    ensures 0.3 <= Similarity(s1, s2) < 1.3
  {
    var longer := if |s1| > |s2| then s1 else s2;
    var shorter := if |s1| > |s2| then s2 else s1;
    if Contains(longer, shorter) {
      ContainsLength(longer, shorter);
      if |shorter| == |longer| { ContainsSameLength(longer, shorter); }
    } else {
      ContainsLength(shorter, longer);
      ContainsSameLength(shorter, longer);
    }
    assert |shorter| < |longer|;
    RatioBelowOne(|shorter|, |longer|);
  }

  lemma {:induction false} RatioBelowOne(a: nat, b: nat)
    requires a < b
    ensures 0.0 <= (a as real) / (b as real) < 1.0
  {
    assert ((a as real) / (b as real)) * (b as real) == a as real;
  }

  /** Without containment the score is the share of the longer string left after the edits: in [0, 1]. */
  lemma {:induction false} DistanceRange(s1: string, s2: string)
    requires s1 != s2 && !Contains(s1, s2) && !Contains(s2, s1)
    ensures 0.0 <= Similarity(s1, s2) <= 1.0
  {
    DistAtMostLonger(s1, s2, |s1|, |s2|);
    var longer := if |s1| > |s2| then s1 else s2;
    LongerNonEmpty(s1, s2);
    RatioAtMostOne(|longer| - EditDistance(s1, s2), |longer|);
  }

  lemma {:induction false} RatioAtMostOne(a: nat, b: nat)
    requires a <= b && b > 0
    ensures 0.0 <= (a as real) / (b as real) <= 1.0
  {
    assert ((a as real) / (b as real)) * (b as real) == a as real;
  }

  /** Every score lies in [0, 1.3). */
  lemma {:induction false} ScoreRange(str1: string, str2: string)
    ensures 0.0 <= Score(str1, str2) < 1.3
  {
    var s1 := Clean(str1);
    var s2 := Clean(str2);
    if s1 != s2 {
      if Contains(s1, s2) || Contains(s2, s1) {
        ContainmentRange(s1, s2);
      } else {
        DistanceRange(s1, s2);
      }
    }
  }

  /**
   * A catalogue title that strictly contains the imported name and is less
   * than 10/7 of its length beats a title equal to the name.
   */
  lemma {:induction false} ContainingBeatsExact(name: string, title: string)
    requires Clean(name) != Clean(title) && Contains(Clean(title), Clean(name))
    requires 10 * |Clean(name)| > 7 * |Clean(title)|
    ensures Score(name, title) > Score(name, name) == 1.0
  {
    var s1 := Clean(name);
    var s2 := Clean(title);
    ContainsLength(s2, s1);
    if |s1| == |s2| { ContainsSameLength(s2, s1); }
    assert |s1| < |s2|;
    RatioAboveSeven(|s1|, |s2|);
  }

  lemma {:induction false} RatioAboveSeven(a: nat, b: nat)
    requires b > 0 && 10 * a > 7 * b
    ensures (a as real) / (b as real) + 0.3 > 1.0
  {
    var x := a as real;
    var y := b as real;
    var q := x / y;
    var u := q - 0.7;
    assert q * y == x;
    assert u * y == x - 0.7 * y;
    PositiveFactor(u, y);
  }

  lemma {:induction false} PositiveFactor(u: real, y: real)
    requires y > 0.0 && u * y > 0.0
    ensures u > 0.0
  {
  }

  // ---------------------------------------------------------------------------
  // findBestMatch

  /** The tag `[bundle]` in any letter case, at the front of `s`. */
  predicate TagAt(s: string) {
    |s| >= 8 && ToLower(s[..8]) == "[bundle]"
  }

  /** `s.replace(/\[Bundle\]/gi, '')`: every tag removed, scanning left to right. */
  function RemoveTags(s: string): (r: string)
    ensures |r| <= |s|
  {
    if s == [] then ""
    else if TagAt(s) then RemoveTags(s[8..])
    else [s[0]] + RemoveTags(s[1..])
  }

  /** A name without the tag is left as it is. */
  lemma {:induction false} RemoveTagsNoTag(s: string)
    requires forall i :: 0 <= i <= |s| ==> !TagAt(s[i..])
    ensures RemoveTags(s) == s
  {
    if s != [] {
      assert !TagAt(s[0..]) by { assert s[0..] == s; }
      forall i | 0 <= i <= |s[1..]|
        ensures !TagAt(s[1..][i..])
      {
        assert s[1..][i..] == s[i + 1..];
      }
      RemoveTagsNoTag(s[1..]);
    }
  }

  /** A tag in front of the name is removed. */
  lemma {:induction false} TagRemovedInFront(rest: string)
    ensures RemoveTags("[Bundle]" + rest) == RemoveTags(rest)
  {
    var s := "[Bundle]" + rest;
    assert s[..8] == "[Bundle]";
    assert ToLower("[Bundle]") == "[bundle]";
    assert s[8..] == rest;
  }

  /** `productName.replace(/\[Bundle\]/gi, '').trim()`. */
  function CleanName(productName: string): string {
    Trim(RemoveTags(productName))
  }

  /** `f` applied to every element, in order. */
  function MapSeq<A, B>(f: A -> B, xs: seq<A>): (r: seq<B>)
    ensures |r| == |xs|
  {
    if xs == [] then [] else [f(xs[0])] + MapSeq(f, xs[1..])
  }

  lemma {:induction false} MapSeqAt<A, B>(f: A -> B, xs: seq<A>, k: nat)
    requires k < |xs|
    ensures MapSeq(f, xs)[k] == f(xs[k])
  {
    if k > 0 {
      MapSeqAt(f, xs[1..], k - 1);
    }
  }

  /** The score of every catalogue name against the cleaned product name, in catalogue order. */
  function ScoresOf(cleanName: string, names: seq<string>): (r: seq<real>)
    ensures |r| == |names|
  {
    MapSeq(name => Score(cleanName, name), names)
  }

  lemma {:induction false} ScoreAt(cleanName: string, names: seq<string>, k: nat)
    requires k < |names|
    ensures ScoresOf(cleanName, names)[k] == Score(cleanName, names[k])
  {
    MapSeqAt(name => Score(cleanName, name), names, k);
  }

  /** A candidate that passed the threshold: its position in the catalogue and its score. */
  datatype Match = Match(index: nat, score: real)

  /** None of the first `i` scores reaches the 0.5 threshold. */
  predicate NoneQualifies(scores: seq<real>, i: nat)
    requires i <= |scores|
  {
    forall k :: 0 <= k < i ==> scores[k] < 0.5
  }

  /**
   * `m` is the earliest maximum of the first `i` scores and reaches the
   * threshold: every score is at most `m.score`, every earlier one is below it.
   */
  predicate FirstMaximum(scores: seq<real>, i: nat, m: Match)
    requires i <= |scores|
  {
    m.index < i && m.score == scores[m.index] && m.score >= 0.5
    && (forall k :: 0 <= k < i ==> scores[k] <= m.score)
    && (forall k :: 0 <= k < m.index ==> scores[k] < m.score)
  }

  /** The loop's state after `i` candidates: no match with score 0, or the earliest maximum so far. */
  predicate Selected(scores: seq<real>, i: nat, best: Option<Match>, bestScore: real)
    requires i <= |scores|
  {
    match best
    case None => bestScore == 0.0 && NoneQualifies(scores, i)
    case Some(m) => bestScore == m.score && FirstMaximum(scores, i, m)
  }

  /** One step of the selection loop keeps `Selected`. */
  lemma {:induction false} SelectStep(scores: seq<real>, i: nat, best: Option<Match>, bestScore: real)
    requires i < |scores| && Selected(scores, i, best, bestScore)
    ensures var take := scores[i] > bestScore && scores[i] >= 0.5;
      Selected(scores, i + 1, if take then Some(Match(i, scores[i])) else best,
               if take then scores[i] else bestScore)
  {
    var take := scores[i] > bestScore && scores[i] >= 0.5;
    if take {
      assert forall k :: 0 <= k < i ==> scores[k] < scores[i];
    } else if best.None? {
      assert scores[i] < 0.5;
    } else {
      assert scores[i] <= bestScore;
    }
  }

  /** One iteration of the selection loop: score candidate `i` and keep it if it beats the best so far. */
  method Consider(cleanName: string, names: seq<string>, i: nat, best: Option<Match>, bestScore: real)
    returns (best': Option<Match>, bestScore': real)
    requires i < |names| && Selected(ScoresOf(cleanName, names), i, best, bestScore)
    ensures Selected(ScoresOf(cleanName, names), i + 1, best', bestScore')
  {
    var score := StringSimilarity(cleanName, names[i]);
    ScoreAt(cleanName, names, i);
    SelectStep(ScoresOf(cleanName, names), i, best, bestScore);
    if score > bestScore && score >= 0.5 {
      best', bestScore' := Some(Match(i, score)), score;
    } else {
      best', bestScore' := best, bestScore;
    }
  }

  /**
   * The selection loop of `findBestMatch` over the catalogue's names (bundle
   * names of the active bundles, or book titles): a candidate replaces the
   * best so far only with a strictly higher score that is at least 0.5, so
   * the result is none exactly when no score reaches 0.5, and otherwise the
   * earliest candidate with the highest score.
   */
  method SelectBest(cleanName: string, names: seq<string>) returns (best: Option<Match>)
    ensures best.None? <==> NoneQualifies(ScoresOf(cleanName, names), |names|)
    ensures best.Some? ==> FirstMaximum(ScoresOf(cleanName, names), |names|, best.value)
  {
    ghost var scores := ScoresOf(cleanName, names);
    best := None;
    var bestScore := 0.0;
    var i := 0;
    while i < |names|
      invariant 0 <= i <= |names|
      invariant Selected(scores, i, best, bestScore)
    {
      best, bestScore := Consider(cleanName, names, i, best, bestScore);
      i := i + 1;
    }
    if best.Some? {
      assert scores[best.value.index] >= 0.5;
    }
  }

  /** `findBestMatch`: the product name is cleaned of its tags, then every catalogue name is scored against it. */
  method FindBestMatch(productName: string, names: seq<string>) returns (best: Option<Match>)
    ensures best.None? <==> NoneQualifies(ScoresOf(CleanName(productName), names), |names|)
    ensures best.Some? ==> FirstMaximum(ScoresOf(CleanName(productName), names), |names|, best.value)
  {
    best := SelectBest(CleanName(productName), names);
  }
}
