/** `get_ranked_recommendations`: score every opportunity in catalog order,
    keep those scoring above zero, and sort them by score, highest first,
    with `sorted(..., reverse=True)`, which is stable. */
module Ranking {
  import opened Catalog
  import opened Scoring

  /** The tuple `(opp, score, reasons)` of the ranked list. */
  datatype Recommendation = Recommendation(opp: Opportunity, score: int, reasons: seq<string>)

  /** An opportunity paired with its own score and reasons. */
  function Recommend(opp: Opportunity, p: Profile): Recommendation {
    var a := Assess(opp, p);
    Recommendation(opp, a.score, a.reasons)
  }

  /** What the loop of the ranking collects: the opportunities that score
      above zero, each with its assessment, in catalog order. */
  function Candidates(p: Profile, opps: seq<Opportunity>): seq<Recommendation> {
    if opps == [] then []
    else
      var last := opps[|opps| - 1];
      Candidates(p, opps[..|opps| - 1]) + (if Assess(last, p).score > 0 then [Recommend(last, p)] else [])
  }

  /** The candidates are exactly the positively scored opportunities of the
      catalog, each paired with its own assessment. */
  lemma {:induction false} CandidatesMembers(p: Profile, opps: seq<Opportunity>)
    ensures forall r :: r in Candidates(p, opps) <==>
      r.opp in opps && r.score > 0 && r == Recommend(r.opp, p)
  {
    if opps != [] {
      var init, last := opps[..|opps| - 1], opps[|opps| - 1];
      CandidatesMembers(p, init);
      assert opps == init + [last];
      forall r ensures r in Candidates(p, opps) <==> r.opp in opps && r.score > 0 && r == Recommend(r.opp, p) {
        if r.opp in opps && r.opp != last {
          assert r.opp in init;
        }
      }
    }
  }

  /** The recommendations of `rs` whose score is `k`, in their order in `rs`. */
  function ScoreClass(rs: seq<Recommendation>, k: int): (c: seq<Recommendation>)
    ensures forall r :: r in c <==> r in rs && r.score == k
  {
    if rs == [] then []
    else (if rs[0].score == k then [rs[0]] else []) + ScoreClass(rs[1..], k)
  }

  lemma {:induction false} ScoreClassAppend(a: seq<Recommendation>, b: seq<Recommendation>, k: int)
    ensures ScoreClass(a + b, k) == ScoreClass(a, k) + ScoreClass(b, k)
  {
    if a == [] {
      assert a + b == b;
    } else {
      HeadTail(a);
      ConcatAssoc([a[0]], a[1..], b);
      ScoreClassCons(a[0], a[1..] + b, k);
      ScoreClassAppend(a[1..], b, k);
      ScoreClassCons(a[0], a[1..], k);
      ConcatAssoc(if a[0].score == k then [a[0]] else [], ScoreClass(a[1..], k), ScoreClass(b, k));
    }
  }

  lemma ScoreClassCons(r: Recommendation, rs: seq<Recommendation>, k: int)
    ensures ScoreClass([r] + rs, k) == (if r.score == k then [r] else []) + ScoreClass(rs, k)
  {
    assert ([r] + rs)[1..] == rs;
  }

  /** Scores never go up along the list. */
  predicate NonIncreasing(rs: seq<Recommendation>) {
    forall i, j :: 0 <= i < j < |rs| ==> rs[i].score >= rs[j].score
  }

  /** Places `x` after every element scoring at least as much as it. */
  function InsertByScore(x: Recommendation, rs: seq<Recommendation>): (r: seq<Recommendation>)
    ensures |r| == |rs| + 1
    ensures multiset(r) == multiset(rs) + multiset{x}
    ensures forall y :: y in r <==> y == x || y in rs
  {
    if rs == [] then [x]
    else if x.score > rs[0].score then [x] + rs
    else
      assert rs == [rs[0]] + rs[1..];
      [rs[0]] + InsertByScore(x, rs[1..])
  }

  /** `sorted(rs, key=score, reverse=True)`: stable insertion of each
      element, in input order, into the sorted prefix. */
  function SortByScoreDesc(rs: seq<Recommendation>): (r: seq<Recommendation>)
    ensures multiset(r) == multiset(rs)
  {
    if rs == [] then []
    else
      var init, last := rs[..|rs| - 1], rs[|rs| - 1];
      assert rs == init + [last];
      InsertByScore(last, SortByScoreDesc(init))
  }

  lemma {:induction false} InsertKeepsOrder(x: Recommendation, rs: seq<Recommendation>)
    requires NonIncreasing(rs)
    ensures NonIncreasing(InsertByScore(x, rs))
  {
    if rs != [] && x.score <= rs[0].score {
      InsertKeepsOrder(x, rs[1..]);
      var r := InsertByScore(x, rs);
      forall j | 1 <= j < |r|
        ensures r[0].score >= r[j].score
      {
        assert r[j] in InsertByScore(x, rs[1..]);
      }
    }
  }

  /** No element of a sorted list scores above its first one. */
  lemma {:induction false} ClassAboveTopIsEmpty(rs: seq<Recommendation>, k: int)
    requires NonIncreasing(rs)
    requires rs != [] && k > rs[0].score
    ensures ScoreClass(rs, k) == []
  {
    if |rs| > 1 {
      ClassAboveTopIsEmpty(rs[1..], k);
    }
  }

  /** Inserting `x` into a sorted list appends it to its own score class and
      leaves every other class as it was. */
  lemma {:induction false} InsertIntoClass(x: Recommendation, rs: seq<Recommendation>, k: int)
    requires NonIncreasing(rs)
    ensures ScoreClass(InsertByScore(x, rs), k) == ScoreClass(rs, k) + (if x.score == k then [x] else [])
  {
    if rs == [] {
      ScoreClassCons(x, [], k);
    } else if x.score > rs[0].score {
      ScoreClassCons(x, rs, k);
      if x.score == k {
        ClassAboveTopIsEmpty(rs, k);
      }
    } else {
      TailNonIncreasing(rs);
      InsertIntoClass(x, rs[1..], k);
      InsertBehindHead(x, rs, k);
    }
  }

  lemma TailNonIncreasing(rs: seq<Recommendation>)
    requires NonIncreasing(rs) && rs != []
    ensures NonIncreasing(rs[1..])
  {
  }

  /** The step of `InsertIntoClass` where `x` goes behind the head. */
  lemma InsertBehindHead(x: Recommendation, rs: seq<Recommendation>, k: int)
    requires rs != [] && x.score <= rs[0].score
    requires ScoreClass(InsertByScore(x, rs[1..]), k) == ScoreClass(rs[1..], k) + (if x.score == k then [x] else [])
    ensures ScoreClass(InsertByScore(x, rs), k) == ScoreClass(rs, k) + (if x.score == k then [x] else [])
  {
    var head := if rs[0].score == k then [rs[0]] else [];
    var rest := ScoreClass(rs[1..], k);
    var own := if x.score == k then [x] else [];
    var tail := InsertByScore(x, rs[1..]);
    assert InsertByScore(x, rs) == [rs[0]] + tail;
    ScoreClassCons(rs[0], tail, k);
    HeadTail(rs);
    ScoreClassCons(rs[0], rs[1..], k);
    ConcatAssoc(head, rest, own);
  }

  lemma HeadTail<T>(s: seq<T>)
    requires s != []
    ensures s == [s[0]] + s[1..]
  {
  }

  lemma ConcatAssoc<T>(a: seq<T>, b: seq<T>, c: seq<T>)
    ensures a + (b + c) == (a + b) + c
  {
  }

  /** The sort orders scores from highest to lowest and keeps, within each
      score, the input order. */
  lemma SortByScoreDescSpec(rs: seq<Recommendation>)
    ensures NonIncreasing(SortByScoreDesc(rs))
    ensures forall k :: ScoreClass(SortByScoreDesc(rs), k) == ScoreClass(rs, k)
  {
    SortIsOrdered(rs);
    forall k ensures ScoreClass(SortByScoreDesc(rs), k) == ScoreClass(rs, k) {
      SortKeepsClass(rs, k);
    }
  }

  lemma SortUnfold(rs: seq<Recommendation>)
    requires rs != []
    ensures rs == rs[..|rs| - 1] + [rs[|rs| - 1]]
    ensures SortByScoreDesc(rs) == InsertByScore(rs[|rs| - 1], SortByScoreDesc(rs[..|rs| - 1]))
  {
    InitLast(rs);
  }

  lemma InitLast<T>(s: seq<T>)
    requires s != []
    ensures s == s[..|s| - 1] + [s[|s| - 1]]
  {
  }

  lemma {:induction false} SortIsOrdered(rs: seq<Recommendation>)
    ensures NonIncreasing(SortByScoreDesc(rs))
  {
    if rs != [] {
      SortUnfold(rs);
      SortIsOrdered(rs[..|rs| - 1]);
      InsertKeepsOrder(rs[|rs| - 1], SortByScoreDesc(rs[..|rs| - 1]));
    }
  }

  lemma {:induction false} SortKeepsClass(rs: seq<Recommendation>, k: int)
    ensures ScoreClass(SortByScoreDesc(rs), k) == ScoreClass(rs, k)
  {
    if rs != [] {
      var init, last := rs[..|rs| - 1], rs[|rs| - 1];
      SortUnfold(rs);
      SortKeepsClass(init, k);
      SortIsOrdered(init);
      SortStep(init, last, SortByScoreDesc(init), k);
    }
  }

  lemma SortStep(init: seq<Recommendation>, last: Recommendation, sortedInit: seq<Recommendation>, k: int)
    requires NonIncreasing(sortedInit)
    requires ScoreClass(sortedInit, k) == ScoreClass(init, k)
    ensures ScoreClass(InsertByScore(last, sortedInit), k) == ScoreClass(init + [last], k)
  {
    InsertIntoClass(last, sortedInit, k);
    ScoreClassAppend(init, [last], k);
    ScoreClassCons(last, [], k);
    assert [last] + [] == [last];
  }

  lemma HeadInOwnClass(rs: seq<Recommendation>)
    ensures rs != [] ==> rs[0] in ScoreClass(rs, rs[0].score)
  {
  }

  /** Ordering by score and keeping each score's input order fix the result:
      two lists that both do so for the same input are equal. */
  lemma {:induction false} RankingUnique(xs: seq<Recommendation>, ys: seq<Recommendation>)
    requires NonIncreasing(xs) && NonIncreasing(ys)
    requires forall k :: ScoreClass(xs, k) == ScoreClass(ys, k)
    ensures xs == ys
    decreases |xs|
  {
    if xs == [] || ys == [] {
      HeadInOwnClass(xs);
      HeadInOwnClass(ys);
    } else {
      SameTopScore(xs, ys);
      var m := xs[0].score;
      assert xs[0] == ys[0] by {
        HeadOfTopClass(xs);
        HeadOfTopClass(ys);
        assert ScoreClass(xs, m) == ScoreClass(ys, m);
      }
      forall k ensures ScoreClass(xs[1..], k) == ScoreClass(ys[1..], k) {
        DropHeadFromClass(xs, k);
        DropHeadFromClass(ys, k);
      }
      RankingUnique(xs[1..], ys[1..]);
      assert xs == [xs[0]] + xs[1..] && ys == [ys[0]] + ys[1..];
    }
  }

  /** A member of a sorted list scores no more than its first element. */
  lemma BelowHead(rs: seq<Recommendation>, y: Recommendation)
    requires NonIncreasing(rs) && y in rs
    ensures y.score <= rs[0].score
  {
    var i :| 0 <= i < |rs| && rs[i] == y;
  }

  /** Two sorted lists with the same score classes start with the same score. */
  lemma SameTopScore(xs: seq<Recommendation>, ys: seq<Recommendation>)
    requires NonIncreasing(xs) && NonIncreasing(ys) && xs != [] && ys != []
    requires forall k :: ScoreClass(xs, k) == ScoreClass(ys, k)
    ensures xs[0].score == ys[0].score
  {
    HeadInOwnClass(xs);
    HeadInOwnClass(ys);
    assert ScoreClass(xs, xs[0].score) == ScoreClass(ys, xs[0].score);
    assert ScoreClass(xs, ys[0].score) == ScoreClass(ys, ys[0].score);
    BelowHead(ys, xs[0]);
    BelowHead(xs, ys[0]);
  }

  lemma HeadOfTopClass(rs: seq<Recommendation>)
    requires rs != []
    ensures ScoreClass(rs, rs[0].score) != [] && ScoreClass(rs, rs[0].score)[0] == rs[0]
  {
    assert rs == [rs[0]] + rs[1..];
    ScoreClassCons(rs[0], rs[1..], rs[0].score);
  }

  lemma DropHeadFromClass(rs: seq<Recommendation>, k: int)
    requires rs != []
    ensures ScoreClass(rs[1..], k) == ScoreClass(rs, k)[(if rs[0].score == k then 1 else 0)..]
  {
    assert rs == [rs[0]] + rs[1..];
    ScoreClassCons(rs[0], rs[1..], k);
  }

  /** Sorting a list that is already in order changes nothing. */
  lemma SortOfSorted(rs: seq<Recommendation>)
    requires NonIncreasing(rs)
    ensures SortByScoreDesc(rs) == rs
  {
    SortByScoreDescSpec(rs);
    RankingUnique(SortByScoreDesc(rs), rs);
  }

  /** `get_ranked_recommendations`: the positively scored opportunities with
      their own scores and reasons, highest score first, equal scores in
      catalog order. */
  method GetRankedRecommendations(profile: Profile, opps: seq<Opportunity>)
    returns (ranked: seq<Recommendation>)
    ensures ranked == SortByScoreDesc(Candidates(profile, opps))
    ensures forall r :: r in ranked <==> r.opp in opps && r.score > 0 && r == Recommend(r.opp, profile)
    ensures NonIncreasing(ranked)
    ensures forall k :: ScoreClass(ranked, k) == ScoreClass(Candidates(profile, opps), k)
  {
    var unsorted := [];
    for i := 0 to |opps|
      invariant unsorted == Candidates(profile, opps[..i])
    {
      var score, reasons := CalculateRelevanceScore(opps[i], profile);
      if score > 0 {
        unsorted := unsorted + [Recommendation(opps[i], score, reasons)];
      }
      assert opps[..i + 1][..i] == opps[..i];
    }
    assert opps[..|opps|] == opps;
    ranked := SortByScoreDesc(unsorted);
    SortByScoreDescSpec(unsorted);
    CandidatesMembers(profile, opps);
    assert forall r :: r in ranked <==> r in unsorted by {
      assert multiset(ranked) == multiset(unsorted);
      forall r ensures r in ranked <==> r in unsorted {
        assert r in ranked <==> r in multiset(ranked);
        assert r in unsorted <==> r in multiset(unsorted);
      }
    }
  }

  /** What the empty profile is shown: every opportunity closing within 14
      days, each scoring 15 for urgency alone, in catalog order. */
  function UrgentOnly(opps: seq<Opportunity>): seq<Recommendation> {
    if opps == [] then []
    else
      var last := opps[|opps| - 1];
      UrgentOnly(opps[..|opps| - 1])
        + (if UrgencyFires(last) then [Recommendation(last, 15, [UrgencyReason])] else [])
  }

  lemma {:induction false} UrgentOnlyScores(opps: seq<Opportunity>)
    ensures forall r :: r in UrgentOnly(opps) ==> r.score == 15
  {
    if opps != [] {
      UrgentOnlyScores(opps[..|opps| - 1]);
    }
  }

  lemma {:induction false} EmptyProfileCandidates(opps: seq<Opportunity>)
    ensures Candidates(EmptyProfile, opps) == UrgentOnly(opps)
  {
    if opps != [] {
      EmptyProfileCandidates(opps[..|opps| - 1]);
      EmptyProfileAssessment(opps[|opps| - 1]);
    }
  }

  /** An empty profile is not always shown an empty list: it sees every
      opportunity closing within 14 days, in catalog order, which may be
      none. */
  lemma EmptyProfileRanking(opps: seq<Opportunity>)
    ensures SortByScoreDesc(Candidates(EmptyProfile, opps)) == UrgentOnly(opps)
    ensures (forall o :: o in opps ==> !UrgencyFires(o)) ==>
      SortByScoreDesc(Candidates(EmptyProfile, opps)) == []
  {
    EmptyProfileCandidates(opps);
    var u := UrgentOnly(opps);
    UrgentOnlyScores(opps);
    assert NonIncreasing(u) by {
      forall i, j | 0 <= i < j < |u| ensures u[i].score >= u[j].score {
        assert u[i] in u && u[j] in u;
      }
    }
    SortOfSorted(u);
    if forall o :: o in opps ==> !UrgencyFires(o) {
      EmptyProfileCandidates(opps);
      CandidatesMembers(EmptyProfile, opps);
      if Candidates(EmptyProfile, opps) != [] {
        var r := Candidates(EmptyProfile, opps)[0];
        EmptyProfileAssessment(r.opp);
      }
    }
  }
}
