/** The weighted ranker of the comparison stage (crates/jailgun-workflow/src/prompts.rs). */
module Ranking {
  import opened Text

  datatype Criterion = Criterion(name: string, weight: nat)
  datatype Score = Score(criterion: string, score: nat, rationale: string)
  datatype Evaluation = Evaluation(candidate: nat, scores: seq<Score>, disagreements: seq<string>, uncertainty: string)

  /** One ranked candidate; the score is kept in hundredths. */
  datatype Ranked = Ranked(hundredths: nat, evaluation: Evaluation)

  // ---------- What a complete comparison is ----------

  predicate NoDup<T(==)>(xs: seq<T>) {
    forall i, j | 0 <= i < j < |xs| :: xs[i] != xs[j]
  }

  function CriterionNames(criteria: seq<Criterion>): seq<string> {
    seq(|criteria|, i requires 0 <= i < |criteria| => criteria[i].name)
  }

  function ScoredNames(scores: seq<Score>): seq<string> {
    seq(|scores|, i requires 0 <= i < |scores| => scores[i].criterion)
  }

  function EvaluatedCandidates(evaluations: seq<Evaluation>): seq<nat> {
    seq(|evaluations|, i requires 0 <= i < |evaluations| => evaluations[i].candidate)
  }

  predicate ScoreOk(s: Score) {
    s.score <= 100 && !Blank(s.rationale)
  }

  /** Every criterion is scored exactly once, within range, with a rationale and an uncertainty. */
  predicate EvaluationOk(e: Evaluation, criteria: seq<Criterion>) {
    && NoDup(CriterionNames(criteria))
    && multiset(ScoredNames(e.scores)) == multiset(CriterionNames(criteria))
    && (forall i | 0 <= i < |e.scores| :: ScoreOk(e.scores[i]))
    && !Blank(e.uncertainty)
  }

  /** The evaluations cover the distinct candidates exactly once each, and each one is complete. */
  predicate Complete(evaluations: seq<Evaluation>, criteria: seq<Criterion>, candidates: seq<nat>) {
    && NoDup(candidates)
    && multiset(EvaluatedCandidates(evaluations)) == multiset(candidates)
    && AllOk(evaluations, criteria)
  }

  predicate AllOk(evaluations: seq<Evaluation>, criteria: seq<Criterion>) {
    forall i | 0 <= i < |evaluations| :: EvaluationOk(evaluations[i], criteria)
  }

  // ---------- The weighted score ----------

  /** Weight of the first criterion with this name; zero when there is none. */
  function WeightOf(criteria: seq<Criterion>, name: string): nat {
    if criteria == [] then 0
    else if criteria[0].name == name then criteria[0].weight
    else WeightOf(criteria[1..], name)
  }

  /** Score given to this criterion; zero when it was not scored. */
  function ScoreFor(scores: seq<Score>, name: string): nat {
    if scores == [] then 0
    else if scores[0].criterion == name then scores[0].score
    else ScoreFor(scores[1..], name)
  }

  /** The running sum the ranker keeps: weights are looked up score by score. */
  function Weighted(scores: seq<Score>, criteria: seq<Criterion>): nat {
    if scores == [] then 0
    else Weighted(scores[..|scores| - 1], criteria)
         + WeightOf(criteria, scores[|scores| - 1].criterion) * scores[|scores| - 1].score
  }

  /** Independent definition: scores are looked up criterion by criterion. */
  function FullSum(criteria: seq<Criterion>, scores: seq<Score>): nat {
    if criteria == [] then 0
    else criteria[0].weight * ScoreFor(scores, criteria[0].name) + FullSum(criteria[1..], scores)
  }

  function TotalWeight(criteria: seq<Criterion>): nat {
    if criteria == [] then 0 else criteria[0].weight + TotalWeight(criteria[1..])
  }

  // ---------- The order ----------

  predicate Better(a: Ranked, b: Ranked) {
    || a.hundredths > b.hundredths
    || (a.hundredths == b.hundredths && a.evaluation.candidate < b.evaluation.candidate)
  }

  predicate Descending(rows: seq<Ranked>) {
    forall i, j | 0 <= i < j < |rows| :: Better(rows[i], rows[j])
  }

  function Row(e: Evaluation, criteria: seq<Criterion>): Ranked {
    Ranked(Weighted(e.scores, criteria), e)
  }

  function Rows(evaluations: seq<Evaluation>, criteria: seq<Criterion>): seq<Ranked> {
    seq(|evaluations|, i requires 0 <= i < |evaluations| => Row(evaluations[i], criteria))
  }

  /** What `rank` promises about its result. */
  ghost predicate IsRanking(r: Option<seq<Ranked>>, evaluations: seq<Evaluation>, criteria: seq<Criterion>, candidates: seq<nat>) {
    && (r.Some? <==> Complete(evaluations, criteria, candidates))
    && (r.Some? ==> Descending(r.value) && multiset(r.value) == multiset(Rows(evaluations, criteria)))
  }

  // ---------- Pigeonhole and permutations ----------

  function Without<T>(xs: seq<T>, j: nat): (r: seq<T>)
    requires j < |xs|
    ensures |r| == |xs| - 1
    ensures forall i | 0 <= i < |r| :: r[i] == if i < j then xs[i] else xs[i + 1]
    ensures multiset(xs) == multiset(r) + multiset{xs[j]}
  {
    assert xs == xs[..j] + [xs[j]] + xs[j + 1..];
    xs[..j] + xs[j + 1..]
  }

  lemma Cancel<T>(a: multiset<T>, b: multiset<T>, x: T)
    requires a + multiset{x} == b + multiset{x}
    ensures a == b
  {
    assert a == (a + multiset{x}) - multiset{x};
    assert b == (b + multiset{x}) - multiset{x};
  }

  /** Removing the head of one arrangement from another leaves arrangements of the same rest. */
  lemma Peel<T>(xs: seq<T>, ys: seq<T>) returns (j: nat)
    requires xs != [] && multiset(xs) == multiset(ys)
    ensures j < |ys| && ys[j] == xs[0]
    ensures multiset(xs[1..]) == multiset(Without(ys, j))
  {
    assert xs == [xs[0]] + xs[1..];
    assert xs[0] in multiset(ys);
    j :| 0 <= j < |ys| && ys[j] == xs[0];
    Cancel(multiset(xs[1..]), multiset(Without(ys, j)), xs[0]);
  }

  lemma StillThere<T>(ys: seq<T>, j: nat, x: T)
    requires j < |ys| && x in ys && x != ys[j]
    ensures x in Without(ys, j)
  {
    var k :| 0 <= k < |ys| && ys[k] == x;
    assert Without(ys, j)[if k < j then k else k - 1] == x;
  }

  lemma RestIsThere<T>(xs: seq<T>, ys: seq<T>, j: nat)
    requires xs != [] && NoDup(xs) && (forall i | 0 <= i < |xs| :: xs[i] in ys) && j < |ys| && ys[j] == xs[0]
    ensures NoDup(xs[1..]) && xs[0] !in xs[1..] && forall i | 0 <= i < |xs[1..]| :: xs[1..][i] in Without(ys, j)
  {
    hide Without;
    assert forall i | 0 <= i < |xs| - 1 :: xs[1..][i] == xs[i + 1];
    forall i | 0 <= i < |xs[1..]| ensures xs[1..][i] in Without(ys, j) {
      StillThere(ys, j, xs[i + 1]);
    }
  }

  /** Distinct elements of a list of the same length exhaust it, and it has no repetition either. */
  lemma {:induction false} Pigeonhole<T>(xs: seq<T>, ys: seq<T>)
    requires NoDup(xs) && |xs| == |ys|
    requires forall i | 0 <= i < |xs| :: xs[i] in ys
    ensures NoDup(ys) && multiset(xs) == multiset(ys)
  {
    if xs != [] {
      assert xs[0] in ys;
      var j :| 0 <= j < |ys| && ys[j] == xs[0];
      RestIsThere(xs, ys, j);
      hide NoDup, Without;
      Pigeonhole(xs[1..], Without(ys, j));
      NoDupInsert(xs[1..], ys, j);
      HeadBack(xs, ys, j);
    }
  }

  lemma HeadBack<T>(xs: seq<T>, ys: seq<T>, j: nat)
    requires xs != [] && j < |ys| && ys[j] == xs[0] && multiset(xs[1..]) == multiset(Without(ys, j))
    ensures multiset(xs) == multiset(ys)
  {
    assert xs == [xs[0]] + xs[1..];
  }

  lemma NoDupInsert<T>(tail: seq<T>, ys: seq<T>, j: nat)
    requires j < |ys| && ys[j] !in tail
    requires NoDup(Without(ys, j)) && multiset(tail) == multiset(Without(ys, j))
    ensures NoDup(ys)
  {
    var rest := Without(ys, j);
    assert ys[j] !in multiset(rest);
    forall a, b | 0 <= a < b < |ys| ensures ys[a] != ys[b] {
      if a == j {
        assert rest[b - 1] == ys[b] && rest[b - 1] in multiset(rest);
      } else if b == j {
        assert rest[a] == ys[a] && rest[a] in multiset(rest);
      } else {
        assert rest[if a < j then a else a - 1] == ys[a] && rest[if b < j then b else b - 1] == ys[b];
      }
    }
  }

  lemma NoDupBound<T>(xs: seq<T>, i: nat, j: nat)
    requires i < j < |xs| && xs[i] == xs[j]
    ensures multiset(xs)[xs[i]] >= 2
  {
    assert xs == xs[..j] + [xs[j]] + xs[j + 1..];
    assert xs[i] == xs[..j][i];
    assert xs[i] in multiset(xs[..j]);
  }

  lemma {:induction false} NoDupOnce<T>(ys: seq<T>, x: T)
    requires NoDup(ys)
    ensures multiset(ys)[x] <= 1
  {
    if ys != [] {
      assert ys == [ys[0]] + ys[1..];
      NoDupOnce(ys[1..], x);
      if ys[0] == x {
        assert x !in ys[1..];
        assert x !in multiset(ys[1..]);
      }
    }
  }

  /** A permutation of a list without repetition has none. */
  lemma NoDupPermuted<T>(xs: seq<T>, ys: seq<T>)
    requires NoDup(ys) && multiset(xs) == multiset(ys)
    ensures NoDup(xs)
  {
    forall i, j | 0 <= i < j < |xs| ensures xs[i] != xs[j] {
      if xs[i] == xs[j] {
        NoDupBound(xs, i, j);
        NoDupOnce(ys, xs[i]);
      }
    }
  }

  /** Each member of `ys` occurs exactly once in `xs`, and nothing else does. */
  predicate OneEach<T(==)>(xs: seq<T>, ys: seq<T>) {
    && (forall i | 0 <= i < |xs| :: xs[i] in ys) && (forall i | 0 <= i < |ys| :: ys[i] in xs)
    && (forall i, j | 0 <= i < |xs| && 0 <= j < |xs| && xs[i] == xs[j] :: i == j)
    && forall i, j | 0 <= i < |ys| && 0 <= j < |ys| && ys[i] == ys[j] :: i == j
  }

  lemma OneEachIff<T>(xs: seq<T>, ys: seq<T>)
    ensures OneEach(xs, ys) <==> NoDup(ys) && multiset(xs) == multiset(ys)
  {
    if OneEach(xs, ys) {
      forall x ensures multiset(xs)[x] == multiset(ys)[x] {
        if x in xs {
          NoDupOnce(xs, x);
          NoDupOnce(ys, x);
        }
      }
    }
    if NoDup(ys) && multiset(xs) == multiset(ys) {
      NoDupPermuted(xs, ys);
      assert forall i | 0 <= i < |xs| :: xs[i] in multiset(ys);
      assert forall i | 0 <= i < |ys| :: ys[i] in multiset(xs);
    }
  }

  /** What the checks of a comparison come to: every candidate is evaluated once, with one score from 0 to 100 and a
      rationale for each criterion, and with its uncertainty. */
  lemma CompleteIff(evaluations: seq<Evaluation>, criteria: seq<Criterion>, candidates: seq<nat>)
    ensures Complete(evaluations, criteria, candidates)
            <==> && OneEach(EvaluatedCandidates(evaluations), candidates)
                 && forall i | 0 <= i < |evaluations| ::
                      && OneEach(ScoredNames(evaluations[i].scores), CriterionNames(criteria)) && Filled(evaluations[i].uncertainty)
                      && forall j | 0 <= j < |evaluations[i].scores| ::
                           evaluations[i].scores[j].score <= 100 && Filled(evaluations[i].scores[j].rationale)
  {
    OneEachIff(EvaluatedCandidates(evaluations), candidates);
    forall i | 0 <= i < |evaluations|
      ensures EvaluationOk(evaluations[i], criteria)
              <==> && OneEach(ScoredNames(evaluations[i].scores), CriterionNames(criteria)) && Filled(evaluations[i].uncertainty)
                   && forall j | 0 <= j < |evaluations[i].scores| ::
                        evaluations[i].scores[j].score <= 100 && Filled(evaluations[i].scores[j].rationale)
    {
      EvaluationIff(evaluations[i], criteria);
    }
    hide OneEach, NoDup, EvaluationOk, Filled, EvaluatedCandidates, ScoredNames, CriterionNames;
  }

  lemma EvaluationIff(e: Evaluation, criteria: seq<Criterion>)
    ensures EvaluationOk(e, criteria)
            <==> && OneEach(ScoredNames(e.scores), CriterionNames(criteria)) && Filled(e.uncertainty)
                 && forall j | 0 <= j < |e.scores| :: e.scores[j].score <= 100 && Filled(e.scores[j].rationale)
  {
    OneEachIff(ScoredNames(e.scores), CriterionNames(criteria));
    FilledIff(e.uncertainty);
    forall j | 0 <= j < |e.scores| ensures Filled(e.scores[j].rationale) <==> !Blank(e.scores[j].rationale) {
      FilledIff(e.scores[j].rationale);
    }
    hide OneEach, NoDup, Filled, Blank, ScoredNames, CriterionNames;
  }

  ghost function SumOf(names: seq<string>, g: string -> int): int {
    if names == [] then 0 else g(names[0]) + SumOf(names[1..], g)
  }

  lemma {:induction false} SumSplit(a: seq<string>, b: seq<string>, g: string -> int)
    ensures SumOf(a + b, g) == SumOf(a, g) + SumOf(b, g)
  {
    if a == [] {
      assert a + b == b;
    } else {
      assert (a + b)[1..] == a[1..] + b;
      SumSplit(a[1..], b, g);
    }
  }

  /** A sum over names does not depend on their order. */
  lemma {:induction false} SumPermuted(xs: seq<string>, ys: seq<string>, g: string -> int)
    requires multiset(xs) == multiset(ys)
    ensures SumOf(xs, g) == SumOf(ys, g)
  {
    if xs == [] {
      assert |multiset(ys)| == 0;
      assert ys == [];
    } else {
      var j := Peel(xs, ys);
      var rest := Without(ys, j);
      SumPermuted(xs[1..], rest, g);
      assert ys == ys[..j] + ([ys[j]] + ys[j + 1..]);
      SumSplit(ys[..j], [ys[j]] + ys[j + 1..], g);
      SumSplit(ys[..j], ys[j + 1..], g);
      assert ([ys[j]] + ys[j + 1..])[1..] == ys[j + 1..];
    }
  }

  lemma {:induction false} WeightedIsSum(scores: seq<Score>, criteria: seq<Criterion>, g: string -> int)
    requires forall i | 0 <= i < |scores| :: g(scores[i].criterion) == WeightOf(criteria, scores[i].criterion) * scores[i].score
    ensures Weighted(scores, criteria) == SumOf(ScoredNames(scores), g)
  {
    if scores != [] {
      var n := |scores| - 1;
      WeightedIsSum(scores[..n], criteria, g);
      assert ScoredNames(scores) == ScoredNames(scores[..n]) + [scores[n].criterion];
      SumSplit(ScoredNames(scores[..n]), [scores[n].criterion], g);
      assert SumOf([scores[n].criterion], g) == g(scores[n].criterion) + SumOf([], g);
    }
  }

  lemma {:induction false} FullIsSum(criteria: seq<Criterion>, scores: seq<Score>, g: string -> int)
    requires forall i | 0 <= i < |criteria| :: g(criteria[i].name) == criteria[i].weight * ScoreFor(scores, criteria[i].name)
    ensures FullSum(criteria, scores) == SumOf(CriterionNames(criteria), g)
  {
    if criteria != [] {
      FullIsSum(criteria[1..], scores, g);
      assert CriterionNames(criteria)[1..] == CriterionNames(criteria[1..]);
    }
  }

  lemma {:induction false} WeightAt(criteria: seq<Criterion>, i: nat)
    requires i < |criteria| && NoDup(CriterionNames(criteria))
    ensures WeightOf(criteria, criteria[i].name) == criteria[i].weight
  {
    assert CriterionNames(criteria)[i] == criteria[i].name && CriterionNames(criteria)[0] == criteria[0].name;
    if i > 0 {
      assert CriterionNames(criteria[1..]) == CriterionNames(criteria)[1..];
      WeightAt(criteria[1..], i - 1);
    }
  }

  lemma {:induction false} ScoreAt(scores: seq<Score>, i: nat)
    requires i < |scores| && NoDup(ScoredNames(scores))
    ensures ScoreFor(scores, scores[i].criterion) == scores[i].score
  {
    assert ScoredNames(scores)[i] == scores[i].criterion && ScoredNames(scores)[0] == scores[0].criterion;
    if i > 0 {
      assert ScoredNames(scores[1..]) == ScoredNames(scores)[1..];
      ScoreAt(scores[1..], i - 1);
    }
  }

  /** The running sum is the full weighted sum over the criteria. */
  lemma WeightedIsFullSum(e: Evaluation, criteria: seq<Criterion>)
    requires EvaluationOk(e, criteria)
    ensures Weighted(e.scores, criteria) == FullSum(criteria, e.scores)
  {
    var g := (name: string) => (WeightOf(criteria, name) * ScoreFor(e.scores, name)) as int;
    NoDupPermuted(ScoredNames(e.scores), CriterionNames(criteria));
    forall i | 0 <= i < |e.scores|
      ensures g(e.scores[i].criterion) == WeightOf(criteria, e.scores[i].criterion) * e.scores[i].score
    {
      ScoreAt(e.scores, i);
    }
    forall i | 0 <= i < |criteria|
      ensures g(criteria[i].name) == criteria[i].weight * ScoreFor(e.scores, criteria[i].name)
    {
      WeightAt(criteria, i);
    }
    WeightedIsSum(e.scores, criteria, g);
    FullIsSum(criteria, e.scores, g);
    SumPermuted(ScoredNames(e.scores), CriterionNames(criteria), g);
  }

  lemma {:induction false} ScoreForBound(scores: seq<Score>, name: string)
    requires forall i | 0 <= i < |scores| :: ScoreOk(scores[i])
    ensures ScoreFor(scores, name) <= 100
  {
    if scores != [] {
      ScoreForBound(scores[1..], name);
    }
  }

  lemma {:induction false} FullSumBound(criteria: seq<Criterion>, scores: seq<Score>)
    requires forall i | 0 <= i < |scores| :: ScoreOk(scores[i])
    ensures FullSum(criteria, scores) <= 100 * TotalWeight(criteria)
  {
    if criteria != [] {
      FullSumBound(criteria[1..], scores);
      ScoreForBound(scores, criteria[0].name);
      var s := ScoreFor(scores, criteria[0].name);
      assert criteria[0].weight * s <= criteria[0].weight * 100;
    }
  }

  /** With weights totalling 100 no weighted score exceeds 10000 hundredths. */
  lemma ScoreNeverExceedsLimit(e: Evaluation, criteria: seq<Criterion>)
    requires EvaluationOk(e, criteria) && TotalWeight(criteria) == 100
    ensures Weighted(e.scores, criteria) <= 10000
  {
    WeightedIsFullSum(e, criteria);
    FullSumBound(criteria, e.scores);
  }

  /** Listing the scores of one evaluation in another order leaves its weighted score unchanged. */
  lemma ScoreOrderIrrelevant(e: Evaluation, f: Evaluation, criteria: seq<Criterion>)
    requires EvaluationOk(e, criteria)
    requires multiset(e.scores) == multiset(f.scores) && e.uncertainty == f.uncertainty
    ensures EvaluationOk(f, criteria)
    ensures Weighted(f.scores, criteria) == Weighted(e.scores, criteria)
  {
    NamesPermuted(e.scores, f.scores);
    NoDupPermuted(ScoredNames(e.scores), CriterionNames(criteria));
    NoDupPermuted(ScoredNames(f.scores), CriterionNames(criteria));
    forall i | 0 <= i < |f.scores| ensures ScoreOk(f.scores[i]) {
      assert f.scores[i] in multiset(e.scores);
    }
    var g := (name: string) => (WeightOf(criteria, name) * ScoreFor(e.scores, name)) as int;
    forall i | 0 <= i < |e.scores|
      ensures g(e.scores[i].criterion) == WeightOf(criteria, e.scores[i].criterion) * e.scores[i].score
    {
      ScoreAt(e.scores, i);
    }
    forall i | 0 <= i < |f.scores|
      ensures g(f.scores[i].criterion) == WeightOf(criteria, f.scores[i].criterion) * f.scores[i].score
    {
      assert f.scores[i] in multiset(e.scores);
      var k :| 0 <= k < |e.scores| && e.scores[k] == f.scores[i];
      ScoreAt(e.scores, k);
    }
    WeightedIsSum(e.scores, criteria, g);
    WeightedIsSum(f.scores, criteria, g);
    SumPermuted(ScoredNames(e.scores), ScoredNames(f.scores), g);
  }

  lemma {:induction false} NamesPermuted(a: seq<Score>, b: seq<Score>)
    requires multiset(a) == multiset(b)
    ensures multiset(ScoredNames(a)) == multiset(ScoredNames(b))
  {
    if a == [] {
      assert |multiset(b)| == 0;
    } else {
      var j := Peel(a, b);
      var rest := Without(b, j);
      NamesPermuted(a[1..], rest);
      assert ScoredNames(rest) == Without(ScoredNames(b), j);
      assert ScoredNames(a[1..]) == Without(ScoredNames(a), 0);
    }
  }

  // ---------- Uniqueness of the ranking ----------

  /** At most one arrangement of the same rows is in descending order. */
  lemma {:induction false} DescendingUnique(a: seq<Ranked>, b: seq<Ranked>)
    requires Descending(a) && Descending(b) && multiset(a) == multiset(b)
    ensures a == b
  {
    if a == [] {
      assert |multiset(b)| == 0;
    } else {
      var i := Peel(a, b);
      var j := Peel(b, a);
      assert Better(a[0], a[j]) || j == 0;
      assert Better(b[0], b[i]) || i == 0;
      assert i == 0;
      assert Without(b, 0) == b[1..];
      DescendingUnique(a[1..], b[1..]);
    }
  }

  lemma {:induction false} RowsPermuted(a: seq<Evaluation>, b: seq<Evaluation>, criteria: seq<Criterion>)
    requires multiset(a) == multiset(b)
    ensures multiset(Rows(a, criteria)) == multiset(Rows(b, criteria))
    ensures multiset(EvaluatedCandidates(a)) == multiset(EvaluatedCandidates(b))
  {
    if a == [] {
      assert |multiset(b)| == 0;
    } else {
      var j := Peel(a, b);
      var rest := Without(b, j);
      RowsPermuted(a[1..], rest, criteria);
      RowsSplit(a, 0, criteria);
      RowsSplit(b, j, criteria);
    }
  }

  /** Taking one evaluation out takes its row and its candidate out. */
  lemma RowsSplit(a: seq<Evaluation>, j: nat, criteria: seq<Criterion>)
    requires j < |a|
    ensures multiset(Rows(a, criteria)) == multiset(Rows(Without(a, j), criteria)) + multiset{Row(a[j], criteria)}
    ensures multiset(EvaluatedCandidates(a)) == multiset(EvaluatedCandidates(Without(a, j))) + multiset{a[j].candidate}
    ensures j == 0 ==> Without(a, j) == a[1..]
  {
    assert Rows(Without(a, j), criteria) == Without(Rows(a, criteria), j);
    assert EvaluatedCandidates(Without(a, j)) == Without(EvaluatedCandidates(a), j);
  }

  /** The ranking is a function of the collection of evaluations: any order of them gives the same list. */
  lemma RankingIsCanonical(
      r: Option<seq<Ranked>>, a: seq<Evaluation>, s: Option<seq<Ranked>>, b: seq<Evaluation>,
      criteria: seq<Criterion>, candidates: seq<nat>)
    requires IsRanking(r, a, criteria, candidates) && IsRanking(s, b, criteria, candidates)
    requires multiset(a) == multiset(b)
    ensures r == s
  {
    RowsPermuted(a, b, criteria);
    forall i | 0 <= i < |a| ensures a[i] in b { assert a[i] in multiset(b); }
    forall i | 0 <= i < |b| ensures b[i] in a { assert b[i] in multiset(a); }
    assert Complete(a, criteria, candidates) <==> Complete(b, criteria, candidates);
    if r.Some? {
      DescendingUnique(r.value, s.value);
    }
  }

  // ---------- The ranker ----------

  lemma TailBeats(rows: seq<Ranked>)
    requires Descending(rows) && rows != []
    ensures Descending(rows[1..]) && forall x | x in rows[1..] :: Better(rows[0], x)
    ensures multiset(rows) == multiset(rows[1..]) + multiset{rows[0]}
  {
    assert rows == [rows[0]] + rows[1..];
    forall x | x in rows[1..] ensures Better(rows[0], x) {
      var i :| 0 <= i < |rows[1..]| && rows[1..][i] == x;
      assert rows[i + 1] == x;
    }
  }

  lemma HeadFirst(x: Ranked, tail: seq<Ranked>)
    requires Descending(tail) && forall y | y in tail :: Better(x, y)
    ensures Descending([x] + tail) && multiset([x] + tail) == multiset(tail) + multiset{x}
  {
    var rows := [x] + tail;
    forall i, j | 0 <= i < j < |rows| ensures Better(rows[i], rows[j]) {
      assert rows[j] == tail[j - 1] && tail[j - 1] in tail;
    }
  }

  lemma BetterTrans(a: Ranked, rows: seq<Ranked>)
    requires Descending(rows) && rows != [] && Better(a, rows[0])
    ensures forall x | x in rows :: Better(a, x)
  {
    TailBeats(rows);
    forall x | x in rows ensures Better(a, x) {
      assert x == rows[0] || x in rows[1..];
    }
  }

  /** Insertion into a list in descending order. */
  function Insert(rows: seq<Ranked>, row: Ranked): (r: seq<Ranked>)
    requires Descending(rows)
    requires forall x | x in rows :: x.evaluation.candidate != row.evaluation.candidate
    ensures multiset(r) == multiset(rows) + multiset{row}
    ensures forall x | x in r :: x in rows || x == row
    ensures Descending(r)
  {
    if rows == [] then [row]
    else if Better(row, rows[0]) then
      BetterTrans(row, rows);
      HeadFirst(row, rows);
      [row] + rows
    else
      TailBeats(rows);
      var tail := Insert(rows[1..], row);
      HeadFirst(rows[0], tail);
      [rows[0]] + tail
  }

  predicate DistinctCandidates(rows: seq<Ranked>) {
    forall i, j | 0 <= i < j < |rows| :: rows[i].evaluation.candidate != rows[j].evaluation.candidate
  }

  /** Stands for the library's `sort_by_key` on rows of different candidates. */
  function Sort(rows: seq<Ranked>): (r: seq<Ranked>)
    requires DistinctCandidates(rows)
    ensures Descending(r) && multiset(r) == multiset(rows)
    ensures forall x | x in r :: x in rows
  {
    if rows == [] then []
    else
      assert rows == [rows[0]] + rows[1..];
      assert forall x | x in rows[1..] :: x.evaluation.candidate != rows[0].evaluation.candidate;
      Insert(Sort(rows[1..]), rows[0])
  }

  /** A complete evaluation has one score per criterion, all for different criteria of the list. */
  lemma CompleteEvaluation(e: Evaluation, criteria: seq<Criterion>)
    requires EvaluationOk(e, criteria)
    ensures |e.scores| == |criteria|
    ensures forall i | 0 <= i < |e.scores| :: e.scores[i].criterion in CriterionNames(criteria)
    ensures forall j, i | 0 <= j < i < |e.scores| :: e.scores[i].criterion != e.scores[j].criterion
  {
    var names, wanted := ScoredNames(e.scores), CriterionNames(criteria);
    assert |names| == |multiset(names)| && |wanted| == |multiset(wanted)|;
    NoDupPermuted(names, wanted);
    forall i | 0 <= i < |e.scores| ensures e.scores[i].criterion in wanted {
      assert names[i] in multiset(names);
    }
    forall j, i | 0 <= j < i < |e.scores| ensures e.scores[i].criterion != e.scores[j].criterion {
      assert names[j] != names[i];
    }
  }

  /** The part of the input read so far: distinct entries of `pool`, all recorded in `seen`. */
  ghost predicate Spread<T>(part: seq<T>, pool: seq<T>, seen: set<T>) {
    && NoDup(part)
    && (forall x | x in part :: x in pool && x in seen)
    && forall x | x in seen :: x in part
  }

  lemma SpreadOneMore<T>(part: seq<T>, pool: seq<T>, seen: set<T>, x: T)
    requires Spread(part, pool, seen) && x in pool && x !in seen
    ensures Spread(part + [x], pool, seen + {x})
  {
  }

  /** What the inner loop has established after reading `i` scores. */
  ghost predicate Scanned(e: Evaluation, criteria: seq<Criterion>, i: nat, seen: set<string>, sum: nat) {
    && i <= |e.scores| && (forall j | 0 <= j < i :: ScoreOk(e.scores[j]))
    && Spread(ScoredNames(e.scores)[..i], CriterionNames(criteria), seen)
    && sum == Weighted(e.scores[..i], criteria)
  }

  lemma ScannedStep(e: Evaluation, criteria: seq<Criterion>, i: nat, seen: set<string>, sum: nat)
    requires Scanned(e, criteria, i, seen, sum) && i < |e.scores| && ScoreOk(e.scores[i])
    requires e.scores[i].criterion in CriterionNames(criteria) && e.scores[i].criterion !in seen
    ensures Scanned(e, criteria, i + 1, seen + {e.scores[i].criterion},
                    sum + WeightOf(criteria, e.scores[i].criterion) * e.scores[i].score)
  {
    var names := ScoredNames(e.scores);
    SpreadOneMore(names[..i], CriterionNames(criteria), seen, names[i]);
    assert names[..i + 1] == names[..i] + [names[i]];
    assert e.scores[..i + 1][..i] == e.scores[..i];
  }

  lemma ScannedAll(e: Evaluation, criteria: seq<Criterion>, seen: set<string>, sum: nat)
    requires Scanned(e, criteria, |e.scores|, seen, sum) && |e.scores| == |criteria| && !Blank(e.uncertainty)
    ensures EvaluationOk(e, criteria) && sum == Weighted(e.scores, criteria)
  {
    var names := ScoredNames(e.scores);
    assert names[..|e.scores|] == names && e.scores[..|e.scores|] == e.scores;
    Pigeonhole(names, CriterionNames(criteria));
  }

  /** A score seen before, or for no criterion, or not acceptable in itself, makes the evaluation incomplete. */
  lemma ScannedStop(e: Evaluation, criteria: seq<Criterion>, i: nat, seen: set<string>, sum: nat)
    requires Scanned(e, criteria, i, seen, sum) && i < |e.scores|
    requires e.scores[i].criterion !in CriterionNames(criteria) || e.scores[i].criterion in seen || !ScoreOk(e.scores[i])
    ensures !EvaluationOk(e, criteria)
  {
    if e.scores[i].criterion in seen {
      var j :| 0 <= j < i && ScoredNames(e.scores)[..i][j] == e.scores[i].criterion;
      assert e.scores[j].criterion == e.scores[i].criterion;
    }
    if EvaluationOk(e, criteria) {
      CompleteEvaluation(e, criteria);
    }
  }

  /** The inner loop: one evaluation is accepted exactly when it is complete, with its weighted score. */
  method ScoreEvaluation(e: Evaluation, criteria: seq<Criterion>) returns (weighted: Option<nat>)
    ensures weighted.Some? <==> EvaluationOk(e, criteria)
    ensures weighted.Some? ==> weighted.value == Weighted(e.scores, criteria)
  {
    if EvaluationOk(e, criteria) {
      CompleteEvaluation(e, criteria);
    }
    if |e.scores| != |criteria| || Blank(e.uncertainty) {
      return None;
    }
    var seen: set<string> := {};
    var sum: nat := 0;
    for i := 0 to |e.scores|
      invariant Scanned(e, criteria, i, seen, sum)
    {
      var s := e.scores[i];
      if s.criterion !in CriterionNames(criteria) || s.criterion in seen || s.score > 100 || Blank(s.rationale) {
        ScannedStop(e, criteria, i, seen, sum);
        return None;
      }
      ScannedStep(e, criteria, i, seen, sum);
      seen := seen + {s.criterion};
      sum := sum + WeightOf(criteria, s.criterion) * s.score;
    }
    ScannedAll(e, criteria, seen, sum);
    return Some(sum);
  }

  lemma AllOkOneMore(evaluations: seq<Evaluation>, i: nat, criteria: seq<Criterion>)
    requires i < |evaluations| && AllOk(evaluations[..i], criteria) && EvaluationOk(evaluations[i], criteria)
    ensures AllOk(evaluations[..i + 1], criteria)
  {
    var part := evaluations[..i + 1];
    forall j | 0 <= j < |part| ensures EvaluationOk(part[j], criteria) {
      assert j < i ==> evaluations[..i][j] == part[j];
    }
  }

  /** A complete comparison has one evaluation per candidate, all for different candidates of the list. */
  lemma CompleteComparison(evaluations: seq<Evaluation>, criteria: seq<Criterion>, candidates: seq<nat>)
    requires Complete(evaluations, criteria, candidates)
    ensures |evaluations| == |candidates|
    ensures forall i | 0 <= i < |evaluations| :: evaluations[i].candidate in candidates
    ensures forall j, i | 0 <= j < i < |evaluations| :: evaluations[i].candidate != evaluations[j].candidate
  {
    var covered := EvaluatedCandidates(evaluations);
    assert |covered| == |multiset(covered)| && |candidates| == |multiset(candidates)|;
    NoDupPermuted(covered, candidates);
    forall i | 0 <= i < |evaluations| ensures evaluations[i].candidate in candidates {
      assert covered[i] in multiset(covered);
    }
    forall j, i | 0 <= j < i < |evaluations| ensures evaluations[i].candidate != evaluations[j].candidate {
      assert covered[j] != covered[i];
    }
  }

  /** What the outer loop has established after reading `part`. */
  ghost predicate Progress(rows: seq<Ranked>, seen: set<nat>, part: seq<Evaluation>, criteria: seq<Criterion>, candidates: seq<nat>) {
    && AllOk(part, criteria)
    && Spread(EvaluatedCandidates(part), candidates, seen) && |seen| == |part|
    && rows == Rows(part, criteria)
  }

  lemma ProgressStep(
      rows: seq<Ranked>, seen: set<nat>, evaluations: seq<Evaluation>, i: nat,
      criteria: seq<Criterion>, candidates: seq<nat>)
    requires i < |evaluations| && Progress(rows, seen, evaluations[..i], criteria, candidates)
    requires evaluations[i].candidate in candidates && evaluations[i].candidate !in seen
    requires EvaluationOk(evaluations[i], criteria)
    ensures Progress(
      rows + [Row(evaluations[i], criteria)], seen + {evaluations[i].candidate}, evaluations[..i + 1], criteria, candidates)
  {
    var e := evaluations[i];
    assert Rows(evaluations[..i + 1], criteria) == Rows(evaluations[..i], criteria) + [Row(e, criteria)];
    assert EvaluatedCandidates(evaluations[..i + 1]) == EvaluatedCandidates(evaluations[..i]) + [e.candidate];
    AllOkOneMore(evaluations, i, criteria);
    SpreadOneMore(EvaluatedCandidates(evaluations[..i]), candidates, seen, e.candidate);
  }

  lemma ProgressDone(
      rows: seq<Ranked>, seen: set<nat>, evaluations: seq<Evaluation>, criteria: seq<Criterion>, candidates: seq<nat>)
    requires Progress(rows, seen, evaluations, criteria, candidates)
    ensures DistinctCandidates(rows)
    ensures Complete(evaluations, criteria, candidates) <==> |seen| == |candidates|
  {
    var covered := EvaluatedCandidates(evaluations);
    assert forall i | 0 <= i < |rows| :: rows[i].evaluation.candidate == covered[i];
    if |seen| == |candidates| {
      Pigeonhole(covered, candidates);
    } else if Complete(evaluations, criteria, candidates) {
      CompleteComparison(evaluations, criteria, candidates);
    }
  }

  /** The ranking as a function of its inputs: nothing for an incomplete comparison. */
  function RankOf(evaluations: seq<Evaluation>, criteria: seq<Criterion>, candidates: seq<nat>): (r: Option<seq<Ranked>>)
    ensures IsRanking(r, evaluations, criteria, candidates)
  {
    if Complete(evaluations, criteria, candidates) then
      CompleteComparison(evaluations, criteria, candidates);
      Some(Sort(Rows(evaluations, criteria)))
    else None
  }

  /** Every ranked row carries an input evaluation with its full weighted sum, at most 10000 when weights total 100. */
  lemma RankedRowsAreFullSums(
      r: Option<seq<Ranked>>, evaluations: seq<Evaluation>, criteria: seq<Criterion>, candidates: seq<nat>, row: Ranked)
    requires IsRanking(r, evaluations, criteria, candidates) && r.Some? && row in r.value
    ensures row.evaluation in evaluations
    ensures row.hundredths == FullSum(criteria, row.evaluation.scores)
    ensures TotalWeight(criteria) == 100 ==> row.hundredths <= 10000
  {
    assert row in multiset(Rows(evaluations, criteria));
    var i :| 0 <= i < |evaluations| && Rows(evaluations, criteria)[i] == row;
    WeightedIsFullSum(evaluations[i], criteria);
    if TotalWeight(criteria) == 100 {
      ScoreNeverExceedsLimit(evaluations[i], criteria);
    }
  }

  method Rank(evaluations: seq<Evaluation>, criteria: seq<Criterion>, candidates: seq<nat>)
    returns (r: Option<seq<Ranked>>)
    ensures IsRanking(r, evaluations, criteria, candidates)
    ensures r == RankOf(evaluations, criteria, candidates)
  {
    if Complete(evaluations, criteria, candidates) {
      CompleteComparison(evaluations, criteria, candidates);
    }
    var seen: set<nat> := {};
    var rows: seq<Ranked> := [];
    for i := 0 to |evaluations|
      invariant Progress(rows, seen, evaluations[..i], criteria, candidates)
    {
      var e := evaluations[i];
      assert e.candidate in seen ==> e.candidate in EvaluatedCandidates(evaluations[..i]);
      if e.candidate !in candidates || e.candidate in seen {
        return None;
      }
      var weighted := ScoreEvaluation(e, criteria);
      if weighted.None? {
        return None;
      }
      ProgressStep(rows, seen, evaluations, i, criteria, candidates);
      rows := rows + [Ranked(weighted.value, e)];
      seen := seen + {e.candidate};
    }
    assert evaluations[..|evaluations|] == evaluations;
    ProgressDone(rows, seen, evaluations, criteria, candidates);
    if |seen| != |candidates| {
      return None;
    }
    return Some(Sort(rows));
  }
}
