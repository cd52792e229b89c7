/**
  Ranking of the DSA tracks for one muon: the first five DSA tracks are
  matched against the muon, each result is stored as a (count, index) pair in
  a five-slot array that starts out as (−1, −1) everywhere, and the array is
  sorted with `std::sort` over reverse iterators, i.e. ascending in the
  reversed view, which is non-increasing in `std::pair`'s lexicographic order
  front to back. The raw counts of the evaluated tracks are kept as well.
 */
module Ranking {
  import opened MuonData
  import opened Matching

  datatype MatchPair = MatchPair(count: int, index: int)

  /** Fixed capacity of the ranking; DSA tracks past index 4 are never evaluated. */
  const NumSlots: nat := 5

  /** Default entry of a slot no DSA track filled. */
  const Unfilled: MatchPair := MatchPair(-1, -1)

  /** `std::pair`'s `operator<`: by count, then by index. */
  predicate PairLess(a: MatchPair, b: MatchPair) {
    a.count < b.count || (a.count == b.count && a.index < b.index)
  }

  /** What `std::sort` guarantees of the range it is given. */
  predicate SortedAscending(s: seq<MatchPair>) {
    forall i, j :: 0 <= i < j < |s| ==> !PairLess(s[j], s[i])
  }

  /** No entry is smaller than an entry after it. */
  predicate NonIncreasing(s: seq<MatchPair>) {
    forall i, j :: 0 <= i < j < |s| ==> !PairLess(s[i], s[j])
  }

  /** The range `[rbegin, rend)`. */
  function Reverse(s: seq<MatchPair>): seq<MatchPair> {
    seq(|s|, i requires 0 <= i < |s| => s[|s| - 1 - i])
  }

  function EvaluatedCount(n: nat): nat {
    if n < NumSlots then n else NumSlots
  }

  /** `nDsaMatches`: `getMatches` against each evaluated DSA track, in order. */
  function RawCounts(muon: Muon, dsas: seq<DsaTrack>, tol: real): seq<int> {
    seq(EvaluatedCount(|dsas|), j requires 0 <= j < EvaluatedCount(|dsas|) => GetMatches(muon, dsas[j], tol))
  }

  /** The five slots before sorting: slot j holds (count j, j) when filled. */
  function FilledSlots(raw: seq<int>): seq<MatchPair>
    requires |raw| <= NumSlots
  {
    seq(NumSlots, j requires 0 <= j < NumSlots => if j < |raw| then MatchPair(raw[j], j) else Unfilled)
  }

  lemma ReverseSortedIsNonIncreasing(s: seq<MatchPair>)
    ensures SortedAscending(Reverse(s)) <==> NonIncreasing(s)
  {
    var r := Reverse(s);
    var n := |s|;
    if SortedAscending(r) {
      forall i, j | 0 <= i < j < n ensures !PairLess(s[i], s[j]) {
        assert r[n - 1 - j] == s[j] && r[n - 1 - i] == s[i];
      }
    }
    if NonIncreasing(s) {
      forall i, j | 0 <= i < j < n ensures !PairLess(r[j], r[i]) {
        assert r[j] == s[n - 1 - j] && r[i] == s[n - 1 - i];
      }
    }
  }

  /** Two pairs neither of which is smaller than the other are equal. */
  lemma PairLessTotal(a: MatchPair, b: MatchPair)
    ensures !PairLess(a, b) && !PairLess(b, a) ==> a == b
  {
  }

  function Insert(p: MatchPair, s: seq<MatchPair>): (r: seq<MatchPair>)
    requires NonIncreasing(s)
    ensures |r| == |s| + 1
    ensures multiset(r) == multiset(s) + multiset{p}
    ensures NonIncreasing(r)
  {
    if |s| == 0 then [p]
    else if !PairLess(p, s[0]) then
      InsertAtFront(p, s);
      [p] + s
    else
      assert s == [s[0]] + s[1..];
      var t := Insert(p, s[1..]);
      InsertBehindHead(p, s, t);
      [s[0]] + t
  }

  lemma InsertAtFront(p: MatchPair, s: seq<MatchPair>)
    requires NonIncreasing(s) && |s| > 0 && !PairLess(p, s[0])
    ensures NonIncreasing([p] + s)
  {
    var r := [p] + s;
    forall i, j | 0 <= i < j < |r| ensures !PairLess(r[i], r[j]) {
      if i == 0 {
        assert r[j] == s[j - 1];
        assert j == 1 || !PairLess(s[0], s[j - 1]);
      } else {
        assert r[i] == s[i - 1] && r[j] == s[j - 1];
      }
    }
  }

  lemma InsertBehindHead(p: MatchPair, s: seq<MatchPair>, t: seq<MatchPair>)
    requires NonIncreasing(s) && |s| > 0 && PairLess(p, s[0])
    requires NonIncreasing(t) && multiset(t) == multiset(s[1..]) + multiset{p}
    ensures NonIncreasing([s[0]] + t)
  {
    var r := [s[0]] + t;
    forall i, j | 0 <= i < j < |r| ensures !PairLess(r[i], r[j]) {
      if i == 0 {
        var x := t[j - 1];
        assert x in multiset(t);
        if x != p {
          assert x in multiset(s[1..]);
          var k :| 0 <= k < |s[1..]| && s[1..][k] == x;
          assert s[k + 1] == x;
        }
      } else {
        assert r[i] == t[i - 1] && r[j] == t[j - 1];
      }
    }
  }

  /** Adjacent entries in order suffice for the whole sequence to be in order. */
  lemma {:induction false} NonIncreasingFromAdjacent(s: seq<MatchPair>)
    requires forall i :: 0 <= i < |s| - 1 ==> !PairLess(s[i], s[i + 1])
    ensures NonIncreasing(s)
    decreases |s|
  {
    if |s| > 1 {
      var t := s[1..];
      forall i | 0 <= i < |t| - 1 ensures !PairLess(t[i], t[i + 1]) {
        assert t[i] == s[i + 1] && t[i + 1] == s[i + 2];
      }
      NonIncreasingFromAdjacent(t);
      forall i, j | 0 <= i < j < |s| ensures !PairLess(s[i], s[j]) {
        if i == 0 {
          assert j == 1 || !PairLess(t[0], t[j - 1]);
        } else {
          assert s[i] == t[i - 1] && s[j] == t[j - 1];
        }
      }
    }
  }

  /** A non-increasing permutation of `s` (insertion sort). */
  function SortNonIncreasing(s: seq<MatchPair>): (r: seq<MatchPair>)
    ensures |r| == |s|
    ensures multiset(r) == multiset(s)
    ensures NonIncreasing(r)
  {
    if |s| == 0 then []
    else
      assert s == [s[0]] + s[1..];
      Insert(s[0], SortNonIncreasing(s[1..]))
  }

  /**
    A non-increasing arrangement of a multiset of pairs is unique, so every
    sorting algorithm yields the same array: the ranking does not depend on
    how `std::sort` orders equal elements.
   */
  lemma {:induction false} SortedPermutationUnique(a: seq<MatchPair>, b: seq<MatchPair>)
    requires NonIncreasing(a) && NonIncreasing(b)
    requires multiset(a) == multiset(b)
    ensures a == b
    decreases |a|
  {
    if |a| == 0 {
      assert |b| == |multiset(b)| == 0;
    } else {
      assert |b| == |multiset(b)| == |multiset(a)| == |a|;
      assert a[0] in multiset(b);
      var k :| 0 <= k < |b| && b[k] == a[0];
      assert b[0] in multiset(a);
      var m :| 0 <= m < |a| && a[m] == b[0];
      assert !PairLess(b[0], b[k]) || k == 0;
      assert !PairLess(a[0], a[m]) || m == 0;
      PairLessTotal(a[0], b[0]);
      assert a[0] == b[0];
      assert a == [a[0]] + a[1..];
      assert b == [b[0]] + b[1..];
      assert multiset(a) == multiset{a[0]} + multiset(a[1..]);
      assert multiset(b) == multiset{b[0]} + multiset(b[1..]);
      assert multiset(a[1..]) == multiset(a) - multiset{a[0]};
      assert multiset(b[1..]) == multiset(b) - multiset{b[0]};
      SortedPermutationUnique(a[1..], b[1..]);
    }
  }

  /**
    The ranked array for one muon: five entries, a permutation of the filled
    slots, sorted by `std::sort` through reverse iterators.
   */
  function RankedMatches(muon: Muon, dsas: seq<DsaTrack>, tol: real): (r: seq<MatchPair>)
    ensures |r| == NumSlots
    ensures multiset(r) == multiset(FilledSlots(RawCounts(muon, dsas, tol)))
    ensures SortedAscending(Reverse(r))
  {
    var r := SortNonIncreasing(FilledSlots(RawCounts(muon, dsas, tol)));
    ReverseSortedIsNonIncreasing(r);
    r
  }

  /** Any array `std::sort` may leave behind is the one `RankedMatches` gives. */
  lemma RankingIsDetermined(muon: Muon, dsas: seq<DsaTrack>, tol: real, r: seq<MatchPair>)
    requires multiset(r) == multiset(FilledSlots(RawCounts(muon, dsas, tol)))
    requires SortedAscending(Reverse(r))
    ensures r == RankedMatches(muon, dsas, tol)
  {
    var q := RankedMatches(muon, dsas, tol);
    ReverseSortedIsNonIncreasing(r);
    ReverseSortedIsNonIncreasing(q);
    SortedPermutationUnique(r, q);
  }

  /**
    Every ranked entry is either the default (−1, −1) or the pair of an
    evaluated DSA track with its match count, and every evaluated DSA track
    appears in the ranking.
   */
  lemma RankedEntriesAreEvaluatedTracks(muon: Muon, dsas: seq<DsaTrack>, tol: real)
    ensures var r := RankedMatches(muon, dsas, tol);
      && (forall k :: 0 <= k < |r| ==>
            r[k] == Unfilled
            || (0 <= r[k].index < EvaluatedCount(|dsas|) && r[k].count == GetMatches(muon, dsas[r[k].index], tol)))
      && (forall j :: 0 <= j < EvaluatedCount(|dsas|) ==> MatchPair(GetMatches(muon, dsas[j], tol), j) in r)
  {
    var r := RankedMatches(muon, dsas, tol);
    var slots := FilledSlots(RawCounts(muon, dsas, tol));
    forall k | 0 <= k < |r|
      ensures r[k] == Unfilled
              || (0 <= r[k].index < EvaluatedCount(|dsas|) && r[k].count == GetMatches(muon, dsas[r[k].index], tol))
    {
      assert r[k] in multiset(slots);
      var j :| 0 <= j < |slots| && slots[j] == r[k];
    }
    forall j | 0 <= j < EvaluatedCount(|dsas|) ensures MatchPair(GetMatches(muon, dsas[j], tol), j) in r {
      assert slots[j] in multiset(r);
    }
  }

  /** Equal counts are ranked by the higher original index first. */
  lemma TiesGoToHigherIndex(muon: Muon, dsas: seq<DsaTrack>, tol: real, i: nat, j: nat)
    requires i < j < NumSlots
    ensures var r := RankedMatches(muon, dsas, tol);
      r[i].count >= r[j].count
      && (r[i].count == r[j].count ==> r[i].index >= r[j].index)
  {
    ReverseSortedIsNonIncreasing(RankedMatches(muon, dsas, tol));
  }

  /** With no DSA tracks nothing is evaluated and all five entries stay (−1, −1). */
  lemma NoDsaTracksAllUnfilled(muon: Muon, tol: real)
    ensures RawCounts(muon, [], tol) == []
    ensures RankedMatches(muon, [], tol) == [Unfilled, Unfilled, Unfilled, Unfilled, Unfilled]
  {
    var five := [Unfilled, Unfilled, Unfilled, Unfilled, Unfilled];
    assert FilledSlots(RawCounts(muon, [], tol)) == five;
    NonIncreasingFromAdjacent(five);
    ReverseSortedIsNonIncreasing(five);
    RankingIsDetermined(muon, [], tol, five);
  }

  /** DSA tracks after the fifth change neither the raw counts nor the ranking. */
  lemma OnlyFirstFiveEvaluated(muon: Muon, dsas: seq<DsaTrack>, more: seq<DsaTrack>, tol: real)
    requires |dsas| >= NumSlots
    ensures RawCounts(muon, dsas + more, tol) == RawCounts(muon, dsas, tol)
    ensures RankedMatches(muon, dsas + more, tol) == RankedMatches(muon, dsas, tol)
  {
    assert RawCounts(muon, dsas + more, tol) == RawCounts(muon, dsas, tol);
  }

  /**
    A muon that fails the arbitration selection against two DSA tracks: both
    evaluated slots hold count −1, and (−1, 1), (−1, 0) rank ahead of the
    defaults.
   */
  lemma IneligibleMuonRanking(muon: Muon, dsas: seq<DsaTrack>, tol: real)
    requires !IsArbitratedTrackerMuon(muon)
    requires |dsas| == 2
    ensures RawCounts(muon, dsas, tol) == [-1, -1]
    ensures RankedMatches(muon, dsas, tol)
            == [MatchPair(-1, 1), MatchPair(-1, 0), Unfilled, Unfilled, Unfilled]
  {
    var expected := [MatchPair(-1, 1), MatchPair(-1, 0), Unfilled, Unfilled, Unfilled];
    assert RawCounts(muon, dsas, tol) == [-1, -1];
    var tail := [Unfilled, Unfilled, Unfilled];
    var slots := FilledSlots([-1, -1]);
    assert slots == [MatchPair(-1, 0), MatchPair(-1, 1)] + tail;
    assert expected == [MatchPair(-1, 1), MatchPair(-1, 0)] + tail;
    assert multiset([MatchPair(-1, 0), MatchPair(-1, 1)]) == multiset([MatchPair(-1, 1), MatchPair(-1, 0)]);
    NonIncreasingFromAdjacent(expected);
    ReverseSortedIsNonIncreasing(expected);
    RankingIsDetermined(muon, dsas, tol, expected);
  }

  /**
    The ranking block of the per-muon loop as written: a loop over the DSA
    tracks that breaks once the index passes 4, filling `nDsaMatches` and the
    slots, followed by the sort.
   */
  method RankDsaTracks(muon: Muon, dsas: seq<DsaTrack>, tol: real)
    returns (nDsaMatches: seq<int>, ranked: seq<MatchPair>)
    ensures |nDsaMatches| == EvaluatedCount(|dsas|)
    ensures forall j :: 0 <= j < |nDsaMatches| ==> nDsaMatches[j] == GetMatches(muon, dsas[j], tol)
    ensures ranked == RankedMatches(muon, dsas, tol)
  {
    var slots := [Unfilled, Unfilled, Unfilled, Unfilled, Unfilled];
    nDsaMatches := [];
    var j := 0;
    while j < |dsas|
      invariant 0 <= j <= |dsas| && j <= NumSlots
      invariant |nDsaMatches| == j
      invariant forall k :: 0 <= k < j ==> nDsaMatches[k] == GetMatches(muon, dsas[k], tol)
      invariant |slots| == NumSlots
      invariant forall k :: 0 <= k < NumSlots ==> slots[k] == if k < j then MatchPair(nDsaMatches[k], k) else Unfilled
    {
      if j > 4 {
        break;
      }
      var nMatches := CountMatches(muon, dsas[j], tol);
      slots := slots[j := MatchPair(nMatches, j)];
      nDsaMatches := nDsaMatches + [nMatches];
      j := j + 1;
    }
    assert nDsaMatches == RawCounts(muon, dsas, tol);
    assert slots == FilledSlots(nDsaMatches);
    ranked := SortNonIncreasing(slots);
    ReverseSortedIsNonIncreasing(ranked);
    RankingIsDetermined(muon, dsas, tol, ranked);
  }
}
