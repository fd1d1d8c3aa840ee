/**
 * The results page (js/admin.js): individual quiz results and group
 * competition results are loaded, tagged with their kind, merged and ordered
 * newest first; a difficulty filter narrows the list; and a summary reports the
 * participants and the rounded mean, highest and lowest percentage of the
 * individual results. Reading the two collections is modelled by passing their
 * documents in.
 */
module Admin {
  import opened Common
  import opened Seqs
  import opened Sorting

  datatype Kind = Individual | Group

  /**
   * A stored result document: its id, its time in milliseconds, the percentage
   * (only individual results carry a meaningful one) and the difficulty, which
   * group results do not have.
   */
  datatype ResultDoc = ResultDoc(id: string, timestamp: int, percentage: int, difficulty: Option<string>)

  /** A document with its `resultType` tag. */
  datatype QuizResult = QuizResult(doc: ResultDoc, kind: Kind)

  const AllDifficulties: string := "all"

  function Timestamp(r: QuizResult): int
  {
    r.doc.timestamp
  }

  /** The documents of one collection, each tagged with `kind`, in snapshot order. */
  function Tagged(docs: seq<ResultDoc>, kind: Kind): (r: seq<QuizResult>)
    ensures |r| == |docs|
    ensures forall i :: 0 <= i < |docs| ==> r[i] == QuizResult(docs[i], kind)
  {
    if docs == [] then [] else Tagged(docs[..|docs| - 1], kind) + [QuizResult(docs[|docs| - 1], kind)]
  }

  /** `allResults` after `loadQuizResults`: both collections tagged, then the stable newest-first sort. */
  function Merged(individual: seq<ResultDoc>, group: seq<ResultDoc>): seq<QuizResult>
  {
    SortDesc(Tagged(individual, Individual) + Tagged(group, Group), Timestamp)
  }

  /**
   * The merged list has as many entries as both inputs together, is ordered
   * newest first and is a permutation of the tagged documents; results with the
   * same time keep their load order, individual results before group results.
   */
  lemma MergedOrder(individual: seq<ResultDoc>, group: seq<ResultDoc>)
    ensures var m := Merged(individual, group);
      && |m| == |individual| + |group|
      && SortedDesc(m, Timestamp)
      && multiset(m) == multiset(Tagged(individual, Individual)) + multiset(Tagged(group, Group))
      && forall t :: WithKey(m, Timestamp, t)
                     == WithKey(Tagged(individual, Individual) + Tagged(group, Group), Timestamp, t)
  {
    var all := Tagged(individual, Individual) + Tagged(group, Group);
    SortDescSorted(all, Timestamp);
    forall t ensures WithKey(Merged(individual, group), Timestamp, t) == WithKey(all, Timestamp, t) {
      SortDescStable(all, Timestamp, t);
    }
  }

  /** A tagged collection holds exactly its documents, each with the collection's tag. */
  lemma TaggedMembership(docs: seq<ResultDoc>, kind: Kind)
    ensures forall r :: r in Tagged(docs, kind) <==> r.kind == kind && r.doc in docs
  {
    var t := Tagged(docs, kind);
    forall r: QuizResult | r.kind == kind && r.doc in docs ensures r in t {
      var i :| 0 <= i < |docs| && docs[i] == r.doc;
      assert t[i] == r;
    }
  }

  /**
   * A result is in the merged list exactly when it is an individual document
   * tagged individual or a group document tagged group.
   */
  lemma MergedMembership(individual: seq<ResultDoc>, group: seq<ResultDoc>)
    ensures forall r :: r in Merged(individual, group) <==>
      (r.kind == Individual && r.doc in individual) || (r.kind == Group && r.doc in group)
  {
    var a, b := Tagged(individual, Individual), Tagged(group, Group);
    var m := Merged(individual, group);
    TaggedMembership(individual, Individual);
    TaggedMembership(group, Group);
    assert multiset(m) == multiset(a + b);
    forall r: QuizResult ensures r in m <==> r in a + b {
      assert r in m <==> r in multiset(m);
      assert r in a + b <==> r in multiset(a + b);
    }
  }

  /** The colour class of an individual result's percentage (`percentageClass`). */
  datatype Band = Poor | Average | Good | Excellent

  function BandOf(percentage: int): Band
  {
    if percentage >= 90 then Excellent
    else if percentage >= 70 then Good
    else if percentage >= 50 then Average
    else Poor
  }

  function BandLevel(b: Band): nat
  {
    match b
    case Poor => 0
    case Average => 1
    case Good => 2
    case Excellent => 3
  }

  /**
   * The bands are cut at 90, 70 and 50 and never go down as the percentage goes
   * up.
   */
  lemma BandThresholds(p: int, q: int)
    ensures BandOf(p) == Excellent <==> p >= 90
    ensures BandOf(p) == Good <==> 70 <= p < 90
    ensures BandOf(p) == Average <==> 50 <= p < 70
    ensures BandOf(p) == Poor <==> p < 50
    ensures p <= q ==> BandLevel(BandOf(p)) <= BandLevel(BandOf(q))
  {
  }

  function IsIndividual(): QuizResult -> bool
  {
    (r: QuizResult) => r.kind != Group
  }

  function HasDifficulty(difficulty: string): QuizResult -> bool
  {
    (r: QuizResult) => r.doc.difficulty == Some(difficulty)
  }

  /** The difficulty filter: everything for "all", otherwise the results with exactly that difficulty. */
  function ByDifficulty(results: seq<QuizResult>, difficulty: string): seq<QuizResult>
  {
    if difficulty == AllDifficulties then results else Filter(results, HasDifficulty(difficulty))
  }

  /**
   * Filtering by a difficulty other than "all" keeps, in order, exactly the
   * results with that difficulty, so group results, which have none, drop out.
   */
  lemma ByDifficultyCorrect(results: seq<QuizResult>, difficulty: string)
    ensures difficulty == AllDifficulties ==> ByDifficulty(results, difficulty) == results
    ensures IsSubsequence(ByDifficulty(results, difficulty), results)
    ensures difficulty != AllDifficulties ==>
      forall r :: r in ByDifficulty(results, difficulty) <==> r in results && r.doc.difficulty == Some(difficulty)
  {
    if difficulty == AllDifficulties {
      FilterAll(results, (r: QuizResult) => true);
      FilterIsSubsequence(results, (r: QuizResult) => true);
    } else {
      FilterIsSubsequence(results, HasDifficulty(difficulty));
      forall r ensures r in ByDifficulty(results, difficulty) <==> r in results && r.doc.difficulty == Some(difficulty) {
        FilterMembership(results, HasDifficulty(difficulty), r);
      }
    }
  }

  /** `individualResults.map(r => r.percentage)`. */
  function Percentages(results: seq<QuizResult>): (ps: seq<int>)
    ensures |ps| == |results|
    ensures forall i :: 0 <= i < |results| ==> ps[i] == results[i].doc.percentage
  {
    if results == [] then [] else [results[0].doc.percentage] + Percentages(results[1..])
  }

  /** `Math.max(...ps)` on a non-empty list. */
  function Max(ps: seq<int>): (m: int)
    requires ps != []
    ensures m in ps && forall x :: x in ps ==> x <= m
  {
    if |ps| == 1 then ps[0]
    else
      var rest := Max(ps[1..]);
      assert ps == [ps[0]] + ps[1..];
      if ps[0] >= rest then ps[0] else rest
  }

  /** `Math.min(...ps)` on a non-empty list. */
  function Min(ps: seq<int>): (m: int)
    requires ps != []
    ensures m in ps && forall x :: x in ps ==> m <= x
  {
    if |ps| == 1 then ps[0]
    else
      var rest := Min(ps[1..]);
      assert ps == [ps[0]] + ps[1..];
      if ps[0] <= rest then ps[0] else rest
  }

  /**
   * `Math.round(sum / n)` on integer percentages: the integer nearest to the
   * mean, halves rounded up.
   */
  function RoundedMean(ps: seq<int>): (avg: int)
    requires ps != []
    ensures 2 * |ps| * avg <= 2 * Sum(ps) + |ps| < 2 * |ps| * (avg + 1)
  {
    var n := |ps|;
    var q := (2 * Sum(ps) + n) / (2 * n);
    assert 2 * n * q + (2 * Sum(ps) + n) % (2 * n) == 2 * Sum(ps) + n;
    q
  }

  /** Bounds on a sum from bounds on its terms. */
  lemma {:induction false} SumBetween(ps: seq<int>, lo: int, hi: int)
    requires forall i :: 0 <= i < |ps| ==> lo <= ps[i] <= hi
    ensures |ps| * lo <= Sum(ps) <= |ps| * hi
  {
    if ps != [] {
      var n := |ps|;
      SumBetween(ps[1..], lo, hi);
      assert n * lo == lo + (n - 1) * lo;
      assert n * hi == hi + (n - 1) * hi;
    }
  }

  /** The rounded mean lies between the lowest and the highest percentage. */
  lemma MeanBetween(ps: seq<int>)
    requires ps != []
    ensures Min(ps) <= RoundedMean(ps) <= Max(ps)
  {
    var lo, hi := Min(ps), Max(ps);
    forall i | 0 <= i < |ps| ensures lo <= ps[i] <= hi {
      assert ps[i] in ps;
    }
    SumBetween(ps, lo, hi);
    RoundedBetween(|ps|, Sum(ps), RoundedMean(ps), lo, hi);
  }

  /** A quotient rounded to the nearest integer stays within integer bounds of the exact one. */
  lemma RoundedBetween(n: nat, sum: int, avg: int, lo: int, hi: int)
    requires n > 0
    requires 2 * n * avg <= 2 * sum + n < 2 * n * (avg + 1)
    requires n * lo <= sum <= n * hi
    ensures lo <= avg <= hi
  {
    if avg < lo {
      MulLess(2 * n, avg + 1, lo);
      assert false;
    }
    if avg > hi {
      MulLess(2 * n, hi + 1, avg);
      assert false;
    }
  }

  lemma MulLess(k: nat, a: int, b: int)
    requires a <= b
    ensures k * a <= k * b
  {
    assert k * b == k * a + k * (b - a);
  }

  /** A statistic cell: a number, or "-" when there is nothing to compute it from. */
  datatype Shown = Number(value: int) | Dash

  /** The four numbers of `updateStats`. */
  datatype Summary = Summary(participants: nat, average: Shown, highest: Shown, lowest: Shown)

  function SummaryOf(results: seq<QuizResult>): Summary
  {
    if results == [] then Summary(0, Number(0), Number(0), Number(0))
    else
      var individual := Filter(results, IsIndividual());
      if individual == [] then Summary(|results|, Dash, Dash, Dash)
      else
        var ps := Percentages(individual);
        Summary(|individual|, Number(RoundedMean(ps)), Number(Max(ps)), Number(Min(ps)))
  }

  /**
   * The summary of an empty list is all zeros; a non-empty list of group
   * results only gives their number as participants and "-" elsewhere.
   */
  lemma SummaryWithoutIndividuals(results: seq<QuizResult>)
    requires forall r :: r in results ==> r.kind == Group
    ensures results == [] ==> SummaryOf(results) == Summary(0, Number(0), Number(0), Number(0))
    ensures results != [] ==> SummaryOf(results) == Summary(|results|, Dash, Dash, Dash)
  {
    forall i | 0 <= i < |results| ensures !IsIndividual()(results[i]) {
      assert results[i] in results;
    }
    FilterNone(results, IsIndividual());
  }

  /**
   * With at least one individual result the participants are the individual
   * results, the highest and lowest are percentages of individual results that
   * bound all of them, and the rounded average lies in between.
   */
  lemma SummaryOfIndividuals(results: seq<QuizResult>)
    requires exists r :: r in results && r.kind == Individual
    ensures var s := SummaryOf(results);
      && s.participants == |Filter(results, IsIndividual())|
      && s.average.Number? && s.highest.Number? && s.lowest.Number?
      && (exists r :: r in results && r.kind == Individual && r.doc.percentage == s.highest.value)
      && (exists r :: r in results && r.kind == Individual && r.doc.percentage == s.lowest.value)
      && (forall r :: r in results && r.kind == Individual ==>
            s.lowest.value <= r.doc.percentage <= s.highest.value)
      && s.lowest.value <= s.average.value <= s.highest.value
  {
    var r0 :| r0 in results && r0.kind == Individual;
    var individual := Filter(results, IsIndividual());
    FilterMembership(results, IsIndividual(), r0);
    var ps := Percentages(individual);
    var s := SummaryOf(results);
    assert s == Summary(|individual|, Number(RoundedMean(ps)), Number(Max(ps)), Number(Min(ps)));
    MeanBetween(ps);
    var hi :| 0 <= hi < |ps| && ps[hi] == Max(ps);
    FilterMembership(results, IsIndividual(), individual[hi]);
    var lo :| 0 <= lo < |ps| && ps[lo] == Min(ps);
    FilterMembership(results, IsIndividual(), individual[lo]);
    forall r | r in results && r.kind == Individual
      ensures s.lowest.value <= r.doc.percentage <= s.highest.value
    {
      FilterMembership(results, IsIndividual(), r);
      var i :| 0 <= i < |individual| && individual[i] == r;
      assert ps[i] in ps;
    }
  }

  /** Once there is an individual result, dropping the group results changes no number. */
  lemma SummaryIgnoresGroups(results: seq<QuizResult>)
    requires exists r :: r in results && r.kind == Individual
    ensures SummaryOf(results) == SummaryOf(Filter(results, IsIndividual()))
  {
    var r0 :| r0 in results && r0.kind == Individual;
    var individual := Filter(results, IsIndividual());
    FilterMembership(results, IsIndividual(), r0);
    FilterAll(individual, IsIndividual());
  }

  class AdminPanel {
    var allResults: seq<QuizResult>
    var filteredResults: seq<QuizResult>

    constructor ()
      ensures allResults == [] && filteredResults == []
    {
      allResults := [];
      filteredResults := [];
    }

    /**
     * `loadQuizResults`: both snapshots are tagged and pushed one by one,
     * individual results first, then the list is sorted newest first; the
     * filtered view starts as the whole list. Returns the summary shown.
     */
    method LoadQuizResults(individual: seq<ResultDoc>, group: seq<ResultDoc>) returns (summary: Summary)
      modifies this
      ensures allResults == Merged(individual, group)
      ensures filteredResults == allResults
      ensures summary == SummaryOf(filteredResults)
    {
      var merged: seq<QuizResult> := [];
      var i := 0;
      while i < |individual|
        invariant 0 <= i <= |individual|
        invariant merged == Tagged(individual[..i], Individual)
      {
        assert individual[..i + 1][..i] == individual[..i];
        merged := merged + [QuizResult(individual[i], Individual)];
        i := i + 1;
      }
      assert individual[..i] == individual;
      var j := 0;
      while j < |group|
        invariant 0 <= j <= |group|
        invariant merged == Tagged(individual, Individual) + Tagged(group[..j], Group)
      {
        assert group[..j + 1][..j] == group[..j];
        merged := merged + [QuizResult(group[j], Group)];
        j := j + 1;
      }
      assert group[..j] == group;
      allResults := SortDesc(merged, Timestamp);
      filteredResults := allResults;
      summary := SummaryOf(filteredResults);
    }

    /** The difficulty select's handler: the filtered view and the summary shown for it. */
    method FilterByDifficulty(difficulty: string) returns (summary: Summary)
      modifies this`filteredResults
      ensures filteredResults == ByDifficulty(allResults, difficulty)
      ensures summary == SummaryOf(filteredResults)
    {
      if difficulty == AllDifficulties {
        filteredResults := allResults;
      } else {
        filteredResults := Filter(allResults, HasDifficulty(difficulty));
      }
      summary := SummaryOf(filteredResults);
    }
  }
}
