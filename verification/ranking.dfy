/** The ranker of the matching engine: keep the opposite-gender candidates,
    score each against the subject, sort by score from highest to lowest
    (stably, as `Array.prototype.sort` has been since ECMAScript 2019,
    section 22.1.3.27), and keep the first `limit`. */
module Ranking {
  import opened Types
  import opened Matching

  /** The candidates of the other gender, in pool order. */
  function OppositeGender(customer: Customer, pool: seq<Customer>): (r: seq<Customer>)
    ensures |r| <= |pool|
    ensures forall k :: 0 <= k < |r| ==> r[k].gender != customer.gender && r[k] in pool
    ensures forall j :: 0 <= j < |pool| && pool[j].gender != customer.gender ==> pool[j] in r
  {
    if pool == [] then []
    else
      var init, last := pool[..|pool| - 1], pool[|pool| - 1];
      assert forall j :: 0 <= j < |init| ==> init[j] == pool[j];
      OppositeGender(customer, init) + (if last.gender != customer.gender then [last] else [])
  }

  /** Filtering a concatenation filters each part: together with
      `OppositeGenderOfOne` this pins the result down as `filter`, keeping
      pool order and repeats. */
  lemma {:induction false} OppositeGenderAppend(customer: Customer, front: seq<Customer>, back: seq<Customer>)
    ensures OppositeGender(customer, front + back) == OppositeGender(customer, front) + OppositeGender(customer, back)
    decreases |back|
  {
    if back == [] {
      assert front + back == front;
    } else {
      var init, last := back[..|back| - 1], back[|back| - 1];
      OppositeGenderAppend(customer, front, init);
      assert (front + back)[..|front + back| - 1] == front + init;
      var kept := if last.gender != customer.gender then [last] else [];
      assert OppositeGender(customer, front + back) == OppositeGender(customer, front + init) + kept;
      assert OppositeGender(customer, back) == OppositeGender(customer, init) + kept;
    }
  }

  /** A one-candidate pool keeps its candidate exactly when the genders differ. */
  lemma OppositeGenderOfOne(customer: Customer, candidate: Customer)
    ensures OppositeGender(customer, [candidate]) == if candidate.gender != customer.gender then [candidate] else []
  {
    assert [candidate][..0] == [];
  }

  /** Every candidate in `candidates` can be scored against `customer`. */
  predicate AllScorable(customer: Customer, candidates: seq<Customer>)
  {
    forall k :: 0 <= k < |candidates| ==> Scorable(customer, candidates[k])
  }

  /** The `map` step: one score per candidate, in the same order. */
  function ScoreAll(customer: Customer, candidates: seq<Customer>): (r: seq<MatchScore>)
    requires AllScorable(customer, candidates)
    ensures |r| == |candidates|
    ensures forall k :: 0 <= k < |r| ==> r[k].customerId == customer.id && r[k].matchId == candidates[k].id
  {
    seq(|candidates|, k requires 0 <= k < |candidates| => CalculateMatch(customer, candidates[k]))
  }

  /** `e` is the subject's score of some opposite-gender candidate in `pool`. */
  predicate FromPool(customer: Customer, pool: seq<Customer>, e: MatchScore)
    requires AllScorable(customer, pool)
  {
    exists j :: 0 <= j < |pool| && pool[j].gender != customer.gender && e == CalculateMatch(customer, pool[j])
  }

  // ---------------------------------------------------------------------
  // Stable sort by descending score, as a function

  predicate NonIncreasing(s: seq<MatchScore>)
  {
    forall i, j :: 0 <= i < j < |s| ==> s[i].score >= s[j].score
  }

  /** The entries of `s` whose score is `v`, in their order in `s`. */
  function WithScore(s: seq<MatchScore>, v: int): seq<MatchScore>
  {
    if s == [] then []
    else WithScore(s[..|s| - 1], v) + (if s[|s| - 1].score == v then [s[|s| - 1]] else [])
  }

  /** Inserts `x` into `s` after every trailing entry that scores at least as
      much, scanning from the back. */
  function InsertByScore(s: seq<MatchScore>, x: MatchScore): (r: seq<MatchScore>)
    ensures |r| == |s| + 1
  {
    if s == [] || s[|s| - 1].score >= x.score then s + [x]
    else InsertByScore(s[..|s| - 1], x) + [s[|s| - 1]]
  }

  /** Insertion sort by descending score. */
  function SortByScore(s: seq<MatchScore>): (r: seq<MatchScore>)
    ensures |r| == |s|
  {
    if s == [] then [] else InsertByScore(SortByScore(s[..|s| - 1]), s[|s| - 1])
  }

  lemma {:induction false} InsertByScorePermutes(s: seq<MatchScore>, x: MatchScore)
    ensures multiset(InsertByScore(s, x)) == multiset(s) + multiset{x}
  {
    if s == [] || s[|s| - 1].score >= x.score {
    } else {
      var init := s[..|s| - 1];
      InsertByScorePermutes(init, x);
      assert s == init + [s[|s| - 1]];
    }
  }

  /** Inserting keeps every score at or above a bound that all entries and
      `x` reach. */
  lemma {:induction false} InsertByScoreBoundedBelow(s: seq<MatchScore>, x: MatchScore, bound: int)
    requires forall k :: 0 <= k < |s| ==> s[k].score >= bound
    requires x.score >= bound
    ensures forall k :: 0 <= k < |InsertByScore(s, x)| ==> InsertByScore(s, x)[k].score >= bound
  {
    if s == [] || s[|s| - 1].score >= x.score {
    } else {
      InsertByScoreBoundedBelow(s[..|s| - 1], x, bound);
    }
  }

  lemma {:induction false} InsertByScoreKeepsOrder(s: seq<MatchScore>, x: MatchScore)
    requires NonIncreasing(s)
    ensures NonIncreasing(InsertByScore(s, x))
  {
    if s == [] || s[|s| - 1].score >= x.score {
      var t := s + [x];
      forall i, j | 0 <= i < j < |t| ensures t[i].score >= t[j].score {
        if j == |s| && i < |s| - 1 {
          assert s[i].score >= s[|s| - 1].score;
        }
      }
    } else {
      var init, last := s[..|s| - 1], s[|s| - 1];
      InsertByScoreKeepsOrder(init, x);
      InsertByScoreBoundedBelow(init, x, last.score);
      var t := InsertByScore(init, x);
      var u := t + [last];
      forall i, j | 0 <= i < j < |u| ensures u[i].score >= u[j].score {
        if j == |t| {
          assert u[i] == t[i];
        }
      }
    }
  }

  /** Inserting keeps the relative order of equal scores, and `x` goes after
      every entry that ties with it. */
  lemma {:induction false} InsertByScoreKeepsTies(s: seq<MatchScore>, x: MatchScore, v: int)
    ensures WithScore(InsertByScore(s, x), v) == WithScore(s, v) + (if x.score == v then [x] else [])
  {
    if s == [] || s[|s| - 1].score >= x.score {
      assert (s + [x])[..|s|] == s;
    } else {
      var init, last := s[..|s| - 1], s[|s| - 1];
      InsertByScoreKeepsTies(init, x, v);
      var t := InsertByScore(init, x);
      assert (t + [last])[..|t|] == t;
    }
  }

  /** The sort puts the scores in non-increasing order. */
  lemma {:induction false} SortByScoreOrders(s: seq<MatchScore>)
    ensures NonIncreasing(SortByScore(s))
  {
    if s != [] {
      SortByScoreOrders(s[..|s| - 1]);
      InsertByScoreKeepsOrder(SortByScore(s[..|s| - 1]), s[|s| - 1]);
    }
  }

  /** The sort is a permutation of its input. */
  lemma {:induction false} SortByScorePermutes(s: seq<MatchScore>)
    ensures multiset(SortByScore(s)) == multiset(s)
  {
    if s != [] {
      var init := s[..|s| - 1];
      SortByScorePermutes(init);
      InsertByScorePermutes(SortByScore(init), s[|s| - 1]);
      assert s == init + [s[|s| - 1]];
    }
  }

  /** The sort is stable: the entries with any one score come out in the
      order they went in. */
  lemma {:induction false} SortByScoreIsStable(s: seq<MatchScore>, v: int)
    ensures WithScore(SortByScore(s), v) == WithScore(s, v)
  {
    if s != [] {
      var init := s[..|s| - 1];
      SortByScoreIsStable(init, v);
      InsertByScoreKeepsTies(SortByScore(init), s[|s| - 1], v);
    }
  }

  /** Keeping a prefix keeps, for each score, a prefix of its ties. */
  lemma {:induction false} PrefixKeepsFirstTies(s: seq<MatchScore>, n: nat, v: int)
    requires n <= |s|
    ensures WithScore(s[..n], v) <= WithScore(s, v)
    decreases |s|
  {
    if n < |s| {
      var init := s[..|s| - 1];
      assert s[..n] == init[..n];
      PrefixKeepsFirstTies(init, n, v);
    } else {
      assert s[..n] == s;
    }
  }

  // ---------------------------------------------------------------------
  // The ranker

  /** The end index `Array.prototype.slice(0, limit)` uses on a list of
      length `n`: a negative limit counts back from the end. */
  function SliceEnd(n: nat, limit: int): (e: nat)
    ensures e <= n
    ensures limit >= 0 ==> e == if limit <= n then limit else n
    ensures limit < 0 ==> e == if n + limit >= 0 then n + limit else 0
  {
    if limit < 0 then (if n + limit >= 0 then n + limit else 0)
    else if limit <= n then limit else n
  }

  /** The ranking, as a function of its inputs. */
  function RankedMatches(customer: Customer, potentialMatches: seq<Customer>, limit: int): (r: seq<MatchScore>)
    requires AllScorable(customer, potentialMatches)
    ensures |r| == SliceEnd(|OppositeGender(customer, potentialMatches)|, limit)
  {
    var candidates := OppositeGender(customer, potentialMatches);
    var sorted := SortByScore(ScoreAll(customer, candidates));
    sorted[..SliceEnd(|sorted|, limit)]
  }

  /** Inserting `x` puts it straight after the last entry that scores at
      least as much as it, with only lower entries after it. */
  lemma {:induction false} InsertByScoreAt(s: seq<MatchScore>, x: MatchScore, j: nat)
    requires j <= |s|
    requires j == 0 || s[j - 1].score >= x.score
    requires forall k :: j <= k < |s| ==> s[k].score < x.score
    ensures InsertByScore(s, x) == s[..j] + [x] + s[j..]
    decreases |s|
  {
    if |s| == j {
      assert s[..j] == s && s[j..] == [];
      assert j > 0 ==> s[|s| - 1] == s[j - 1];
    } else {
      var init := s[..|s| - 1];
      assert init[..j] == s[..j];
      assert j > 0 ==> init[j - 1] == s[j - 1];
      InsertByScoreAt(init, x, j);
      assert s[j..] == init[j..] + [s[|s| - 1]];
    }
  }

  /** A sequence that agrees with `s` before `j`, holds `x` at `j` and
      agrees with `s` shifted by one after it, is `s` with `x` inserted at `j`. */
  lemma OpenedAt(t: seq<MatchScore>, s: seq<MatchScore>, x: MatchScore, j: nat)
    requires |t| == |s| + 1 && j <= |s|
    requires forall k :: 0 <= k < j ==> t[k] == s[k]
    requires t[j] == x
    requires forall k :: j < k < |t| ==> t[k] == s[k - 1]
    ensures t == s[..j] + [x] + s[j..]
  {
  }

  /** The backward scan: shifts right by one every entry of `a[..i]`,
      from the end, that scores less than `x`, and returns the gap it leaves. */
  method ShiftLower(a: array<MatchScore>, i: nat, x: MatchScore) returns (j: nat)
    requires i < a.Length
    modifies a
    ensures j <= i
    ensures forall k :: 0 <= k < j ==> a[k] == old(a[k])
    ensures forall k :: j < k <= i ==> a[k] == old(a[k - 1])
    ensures forall k :: i < k < a.Length ==> a[k] == old(a[k])
    ensures forall k :: j <= k < i ==> old(a[k]).score < x.score
    ensures j == 0 || old(a[j - 1]).score >= x.score
  {
    j := i;
    while j > 0 && a[j - 1].score < x.score
      invariant 0 <= j <= i
      invariant forall k :: 0 <= k < j ==> a[k] == old(a[k])
      invariant forall k :: j < k <= i ==> a[k] == old(a[k - 1])
      invariant forall k :: j <= k < i ==> old(a[k]).score < x.score
      invariant forall k :: i < k < a.Length ==> a[k] == old(a[k])
    {
      a[j] := a[j - 1];
      j := j - 1;
    }
  }

  /** Inserts `a[i]` into the sorted prefix `a[..i]`, after every entry that
      scores at least as much. */
  method InsertIntoSortedPrefix(a: array<MatchScore>, i: nat)
    requires i < a.Length
    modifies a
    ensures a[..i + 1] == InsertByScore(old(a[..i]), old(a[i]))
    ensures a[i + 1..] == old(a[i + 1..])
  {
    ghost var sorted := a[..i];
    var x := a[i];
    var j := ShiftLower(a, i, x);
    InsertByScoreAt(sorted, x, j);
    a[j] := x;
    OpenedAt(a[..i + 1], sorted, x, j);
  }

  /** Sorting one more entry inserts it into the sorted prefix. */
  lemma SortStep(input: seq<MatchScore>, i: nat)
    requires i < |input|
    ensures SortByScore(input[..i + 1]) == InsertByScore(SortByScore(input[..i]), input[i])
  {
    assert input[..i + 1][..i] == input[..i];
  }

  /** Sorts `a` in place by descending score, keeping ties in order. */
  method SortByScoreInPlace(a: array<MatchScore>)
    modifies a
    ensures a[..] == SortByScore(old(a[..]))
  {
    ghost var input := a[..];
    var i := 0;
    while i < a.Length
      invariant 0 <= i <= a.Length
      invariant a[..i] == SortByScore(input[..i])
      invariant a[i..] == input[i..]
    {
      assert a[i] == input[i];
      InsertIntoSortedPrefix(a, i);
      SortStep(input, i);
      i := i + 1;
    }
    assert input[..a.Length] == input;
  }

  /** What the ranking promises: bounded length, best first, ties in pool
      order, and every entry the subject's score of an opposite-gender
      candidate from the pool. */
  lemma RankedMatchesSound(customer: Customer, potentialMatches: seq<Customer>, limit: int)
    requires AllScorable(customer, potentialMatches)
    ensures var r := RankedMatches(customer, potentialMatches, limit);
      && |r| <= |OppositeGender(customer, potentialMatches)|
      && (limit >= 0 ==> |r| <= limit)
      && NonIncreasing(r)
      && (forall v :: WithScore(r, v) <= WithScore(ScoreAll(customer, OppositeGender(customer, potentialMatches)), v))
  {
    var scored := ScoreAll(customer, OppositeGender(customer, potentialMatches));
    var n := SliceEnd(|scored|, limit);
    assert RankedMatches(customer, potentialMatches, limit) == SortByScore(scored)[..n];
    SortedPrefixSound(scored, n);
  }

  /** A prefix of the sorted scores is non-increasing and keeps, for every
      score, a prefix of the ties in their input order. */
  lemma SortedPrefixSound(scored: seq<MatchScore>, n: nat)
    requires n <= |scored|
    ensures NonIncreasing(SortByScore(scored)[..n])
    ensures forall v :: WithScore(SortByScore(scored)[..n], v) <= WithScore(scored, v)
  {
    var sorted := SortByScore(scored);
    SortByScoreOrders(scored);
    forall v ensures WithScore(sorted[..n], v) <= WithScore(scored, v) {
      PrefixKeepsFirstTies(sorted, n, v);
      SortByScoreIsStable(scored, v);
    }
  }

  /** Every ranked entry is the subject's score of an opposite-gender
      candidate taken from the pool. */
  lemma RankedMatchesFromPool(customer: Customer, potentialMatches: seq<Customer>, limit: int)
    requires AllScorable(customer, potentialMatches)
    ensures var r := RankedMatches(customer, potentialMatches, limit);
      forall k :: 0 <= k < |r| ==> r[k].customerId == customer.id && FromPool(customer, potentialMatches, r[k])
  {
    var candidates := OppositeGender(customer, potentialMatches);
    var scored := ScoreAll(customer, candidates);
    var sorted := SortByScore(scored);
    var r := RankedMatches(customer, potentialMatches, limit);
    SortByScorePermutes(scored);
    forall k | 0 <= k < |r|
      ensures r[k].customerId == customer.id && FromPool(customer, potentialMatches, r[k])
    {
      assert r[k] == sorted[k];
      assert r[k] in multiset(scored);
      var m :| 0 <= m < |scored| && scored[m] == r[k];
      var j :| 0 <= j < |potentialMatches| && potentialMatches[j] == candidates[m];
    }
  }

  /** Ranks `potentialMatches` for `customer`: the opposite-gender
      candidates, scored, best first, ties in pool order, at most `limit` of
      them. The pool itself is a value and cannot change. */
  method FindBestMatches(customer: Customer, potentialMatches: seq<Customer>, limit: int)
    returns (r: seq<MatchScore>)
    requires AllScorable(customer, potentialMatches)
    ensures r == RankedMatches(customer, potentialMatches, limit)
    ensures |r| <= |OppositeGender(customer, potentialMatches)|
    ensures limit >= 0 ==> |r| <= limit
    ensures NonIncreasing(r)
    ensures forall v :: WithScore(r, v) <= WithScore(ScoreAll(customer, OppositeGender(customer, potentialMatches)), v)
    ensures forall k :: 0 <= k < |r| ==> r[k].customerId == customer.id && FromPool(customer, potentialMatches, r[k])
    ensures (forall j :: 0 <= j < |potentialMatches| ==> potentialMatches[j].gender == customer.gender) ==> r == []
  {
    // filter
    var candidates := OppositeGender(customer, potentialMatches);

    // map
    var scores := new MatchScore[|candidates|](k requires 0 <= k < |candidates| => CalculateMatch(customer, candidates[k]));
    assert scores[..] == ScoreAll(customer, candidates);

    // sort, then slice
    SortByScoreInPlace(scores);
    r := scores[..SliceEnd(scores.Length, limit)];
    RankedMatchesSound(customer, potentialMatches, limit);
    RankedMatchesFromPool(customer, potentialMatches, limit);
  }
}
