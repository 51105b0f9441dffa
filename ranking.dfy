/**
 * Ranking of leaderboard entries: a stable sort by descending number of
 * referrals (the stream's `sorted(new ReferralComparator().reversed())`)
 * followed by `limit(5)`.
 */
module Ranking {

  import opened ReferralModel

  /** How many entries the leaderboard keeps. */
  const LeaderboardLimit: nat := 5

  function Min(a: nat, b: nat): nat {
    if a <= b then a else b
  }

  /** No entry scores more than an entry before it. */
  ghost predicate NonIncreasing(s: seq<LeaderboardEntry>) {
    forall i, j :: 0 <= i < j < |s| ==> s[i].numReferrals >= s[j].numReferrals
  }

  /** The entries of `s` that score exactly `v`, in their order in `s`. */
  function WithScore(s: seq<LeaderboardEntry>, v: int): seq<LeaderboardEntry>
  {
    if s == [] then []
    else (if s[0].numReferrals == v then [s[0]] else []) + WithScore(s[1..], v)
  }

  lemma {:induction false} WithScoreAppend(a: seq<LeaderboardEntry>, b: seq<LeaderboardEntry>, v: int)
    ensures WithScore(a + b, v) == WithScore(a, v) + WithScore(b, v)
  {
    if a != [] {
      assert (a + b)[1..] == a[1..] + b;
      WithScoreAppend(a[1..], b, v);
    } else {
      assert a + b == b;
    }
  }

  lemma WithScoreCons(x: LeaderboardEntry, s: seq<LeaderboardEntry>, v: int)
    ensures WithScore([x] + s, v) == (if x.numReferrals == v then [x] else []) + WithScore(s, v)
  {
    assert ([x] + s)[1..] == s;
  }

  /**
   * Places `e` before the first entry of `s` that scores no more than `e`:
   * one step of the stable descending sort, with `e` the earliest entry.
   */
  function Insert(e: LeaderboardEntry, s: seq<LeaderboardEntry>): (r: seq<LeaderboardEntry>)
    ensures |r| == |s| + 1
  {
    if s == [] || s[0].numReferrals <= e.numReferrals then [e] + s
    else [s[0]] + Insert(e, s[1..])
  }

  lemma {:induction false} InsertPermutes(e: LeaderboardEntry, s: seq<LeaderboardEntry>)
    ensures multiset(Insert(e, s)) == multiset(s) + multiset{e}
  {
    if s != [] && s[0].numReferrals > e.numReferrals {
      InsertPermutes(e, s[1..]);
      assert s == [s[0]] + s[1..];
    }
  }

  lemma {:induction false} InsertNonIncreasing(e: LeaderboardEntry, s: seq<LeaderboardEntry>)
    requires NonIncreasing(s)
    ensures NonIncreasing(Insert(e, s))
  {
    if s != [] && s[0].numReferrals > e.numReferrals {
      InsertNonIncreasing(e, s[1..]);
      InsertPermutes(e, s[1..]);
      var r := Insert(e, s[1..]);
      assert r[0] in multiset(r);
      assert r[0] == e || r[0] in s[1..];
    }
  }

  /** Among the entries scoring `v`, an inserted `e` comes first. */
  lemma {:induction false} InsertWithScore(e: LeaderboardEntry, s: seq<LeaderboardEntry>, v: int)
    ensures WithScore(Insert(e, s), v) == (if e.numReferrals == v then [e] else []) + WithScore(s, v)
  {
    if s == [] || s[0].numReferrals <= e.numReferrals {
      WithScoreCons(e, s, v);
    } else {
      var rest := Insert(e, s[1..]);
      WithScoreCons(s[0], rest, v);
      InsertWithScore(e, s[1..], v);
      assert s == [s[0]] + s[1..];
      WithScoreCons(s[0], s[1..], v);
      assert s[0].numReferrals == v ==> e.numReferrals != v;
    }
  }

  /** The stable sort by descending score, one insertion per entry from the back. */
  function SortDescending(s: seq<LeaderboardEntry>): (r: seq<LeaderboardEntry>)
    ensures |r| == |s|
  {
    if s == [] then [] else Insert(s[0], SortDescending(s[1..]))
  }

  /** The sort output is ranked: no entry outscores one before it. */
  lemma {:induction false} SortDescendingNonIncreasing(s: seq<LeaderboardEntry>)
    ensures NonIncreasing(SortDescending(s))
  {
    if s != [] {
      SortDescendingNonIncreasing(s[1..]);
      InsertNonIncreasing(s[0], SortDescending(s[1..]));
    }
  }

  /** The sort output is a permutation of its input. */
  lemma {:induction false} SortDescendingPermutes(s: seq<LeaderboardEntry>)
    ensures multiset(SortDescending(s)) == multiset(s)
  {
    if s != [] {
      SortDescendingPermutes(s[1..]);
      InsertPermutes(s[0], SortDescending(s[1..]));
      assert s == [s[0]] + s[1..];
    }
  }

  /** The sort is stable: for every score, the entries with that score keep their input order. */
  lemma {:induction false} SortDescendingStable(s: seq<LeaderboardEntry>, v: int)
    ensures WithScore(SortDescending(s), v) == WithScore(s, v)
  {
    if s != [] {
      SortDescendingStable(s[1..], v);
      InsertWithScore(s[0], SortDescending(s[1..]), v);
    }
  }

  /** `sorted(...).limit(5)`: the first five entries of the stable descending sort. */
  function Rank(entries: seq<LeaderboardEntry>): (top: seq<LeaderboardEntry>)
    ensures |top| == Min(LeaderboardLimit, |entries|)
  {
    SortDescending(entries)[..Min(LeaderboardLimit, |entries|)]
  }

  /** The leaderboard is ranked: no entry outscores one before it. */
  lemma RankNonIncreasing(entries: seq<LeaderboardEntry>)
    ensures NonIncreasing(Rank(entries))
  {
    SortDescendingNonIncreasing(entries);
  }

  /** The sorted entries split into the ranked ones and the ones `limit` drops. */
  lemma RankSplit(entries: seq<LeaderboardEntry>)
    ensures SortDescending(entries) == Rank(entries) + SortDescending(entries)[|Rank(entries)|..]
    ensures multiset(entries) == multiset(Rank(entries)) + multiset(SortDescending(entries)[|Rank(entries)|..])
  {
    var sorted := SortDescending(entries);
    SortDescendingPermutes(entries);
    assert sorted == Rank(entries) + sorted[|Rank(entries)|..];
  }

  /** The leaderboard takes each entry at most as often as it occurs. */
  lemma RankIsSubMultiset(entries: seq<LeaderboardEntry>)
    ensures multiset(Rank(entries)) <= multiset(entries)
  {
    RankSplit(entries);
  }

  /** In a non-increasing sequence nothing after position `k` outscores position `k - 1`. */
  lemma TailScoresNoMore(sorted: seq<LeaderboardEntry>, k: nat)
    requires NonIncreasing(sorted) && k <= |sorted| && (k == 0 ==> sorted == [])
    ensures forall x :: x in multiset(sorted[k..]) ==> 0 < k && x.numReferrals <= sorted[k - 1].numReferrals
  {
    forall x | x in multiset(sorted[k..]) ensures 0 < k && x.numReferrals <= sorted[k - 1].numReferrals {
      var j :| k <= j < |sorted| && sorted[j] == x;
    }
  }

  /** Every entry the limit drops scores no more than the last entry kept. */
  lemma RankKeepsBest(entries: seq<LeaderboardEntry>)
    ensures forall x :: x in multiset(entries) - multiset(Rank(entries)) ==>
              Rank(entries) != [] && x.numReferrals <= Rank(entries)[|Rank(entries)| - 1].numReferrals
  {
    RankSplit(entries);
    var sorted, top := SortDescending(entries), Rank(entries);
    var dropped := sorted[|top|..];
    SortDescendingNonIncreasing(entries);
    TailScoresNoMore(sorted, |top|);
    forall x | x in multiset(entries) - multiset(top)
      ensures top != [] && x.numReferrals <= top[|top| - 1].numReferrals
    {
      assert multiset(entries)[x] == multiset(top)[x] + multiset(dropped)[x];
      assert x in multiset(dropped);
      assert top[|top| - 1] == sorted[|top| - 1];
    }
  }

  /** Entries with equal scores keep their input order, and the first of them are the ones kept. */
  lemma RankKeepsTieOrder(entries: seq<LeaderboardEntry>, v: int)
    ensures WithScore(Rank(entries), v) <= WithScore(entries, v)
  {
    RankSplit(entries);
    var sorted := SortDescending(entries);
    WithScoreAppend(Rank(entries), sorted[|Rank(entries)|..], v);
    SortDescendingStable(entries, v);
  }

  lemma SortExampleTail3(d: LeaderboardEntry, e: LeaderboardEntry, f: LeaderboardEntry)
    requires d.numReferrals == 0 && e.numReferrals == 5 && f.numReferrals == 5
    ensures SortDescending([d, e, f]) == [e, f, d]
  {
    assert [f][1..] == [] && [e, f][1..] == [f] && [d, e, f][1..] == [e, f];
    assert SortDescending([e, f]) == [e, f];
    assert Insert(d, [f]) == [f, d];
  }

  lemma SortExampleTail5(b: LeaderboardEntry, c: LeaderboardEntry, d: LeaderboardEntry,
                         e: LeaderboardEntry, f: LeaderboardEntry)
    requires b.numReferrals == 3 && c.numReferrals == 9
    requires d.numReferrals == 0 && e.numReferrals == 5 && f.numReferrals == 5
    ensures SortDescending([b, c, d, e, f]) == [c, e, f, b, d]
  {
    SortExampleTail3(d, e, f);
    assert [c, d, e, f][1..] == [d, e, f] && [b, c, d, e, f][1..] == [c, d, e, f];
    assert SortDescending([c, d, e, f]) == [c, e, f, d];
    assert [c, e, f, d][1..] == [e, f, d] && [e, f, d][1..] == [f, d] && [f, d][1..] == [d];
    assert Insert(b, [f, d]) == [f, b, d];
    assert Insert(b, [e, f, d]) == [e, f, b, d];
  }

  /**
   * Roots scoring 7, 3, 9, 0, 5, 5, in that order, rank as 9, 7, 5, 5, 3,
   * the two fives in root order; the zero is the one entry dropped.
   */
  lemma RankExample(a: LeaderboardEntry, b: LeaderboardEntry, c: LeaderboardEntry,
                    d: LeaderboardEntry, e: LeaderboardEntry, f: LeaderboardEntry)
    requires a.numReferrals == 7 && b.numReferrals == 3 && c.numReferrals == 9
    requires d.numReferrals == 0 && e.numReferrals == 5 && f.numReferrals == 5
    ensures Rank([a, b, c, d, e, f]) == [c, a, e, f, b]
  {
    SortExampleTail5(b, c, d, e, f);
    assert [a, b, c, d, e, f][1..] == [b, c, d, e, f];
    assert [c, e, f, b, d][1..] == [e, f, b, d];
    assert Insert(a, [e, f, b, d]) == [a, e, f, b, d];
    assert SortDescending([a, b, c, d, e, f]) == [c, a, e, f, b, d];
  }
}
