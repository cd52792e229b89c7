/**
  Hit/segment match counting between a muon and one DSA track
  (`getMatches`). A hit of the DSA track counts once for every chamber entry
  of the muon that has the hit's raw id and holds a segment within the
  tolerance on both local axes; the segment loop stops at the first such
  segment, the chamber loop does not.
 */
module Matching {
  import opened MuonData

  /** The tolerance the producer passes (and the default of the parameter). */
  const MinPositionDiffForMatching: real := 0.000001

  function Abs(v: real): (a: real)
    ensures a >= 0.0
    ensures a == v || a == -v
  {
    if v < 0.0 then -v else v
  }

  /** Valid hit in the muon system, in a DT or CSC chamber. */
  predicate IsMuonChamberHit(h: Hit) {
    && h.valid
    && h.id.det == MuonDet
    && (h.id.subdet == DTSubdet || h.id.subdet == CSCSubdet)
  }

  /** Strict on both axes: a difference equal to `tol` is not a coincidence. */
  predicate WithinTolerance(s: Segment, h: Hit, tol: real) {
    Abs(s.x - h.x) < tol && Abs(s.y - h.y) < tol
  }

  predicate HasCloseSegment(segments: seq<Segment>, h: Hit, tol: real) {
    exists k :: 0 <= k < |segments| && WithinTolerance(segments[k], h, tol)
  }

  predicate ChamberMatchesHit(c: ChamberMatch, h: Hit, tol: real) {
    c.rawId == h.id.rawId && HasCloseSegment(c.segments, h, tol)
  }

  predicate IsArbitratedTrackerMuon(m: Muon) {
    m.isTrackerMuon && m.goodTrackerMuonArbitrated
  }

  /** Chamber entries in which the hit finds a close segment (one each at most). */
  function ChamberCount(chambers: seq<ChamberMatch>, h: Hit, tol: real): nat
  {
    if |chambers| == 0 then 0
    else
      ChamberCount(chambers[..|chambers| - 1], h, tol)
      + (if ChamberMatchesHit(chambers[|chambers| - 1], h, tol) then 1 else 0)
  }

  function HitContribution(h: Hit, chambers: seq<ChamberMatch>, tol: real): nat {
    if IsMuonChamberHit(h) then ChamberCount(chambers, h, tol) else 0
  }

  /** The count accumulated over the hits, in hit order. */
  function MatchCount(hits: seq<Hit>, chambers: seq<ChamberMatch>, tol: real): nat
  {
    if |hits| == 0 then 0
    else
      MatchCount(hits[..|hits| - 1], chambers, tol)
      + HitContribution(hits[|hits| - 1], chambers, tol)
  }

  /** Reference definition: the (hit index, chamber index) pairs that coincide. */
  ghost function MatchedPairs(hits: seq<Hit>, chambers: seq<ChamberMatch>, tol: real): set<(int, int)>
  {
    set i, c | 0 <= i < |hits| && 0 <= c < |chambers|
               && IsMuonChamberHit(hits[i]) && ChamberMatchesHit(chambers[c], hits[i], tol)
      :: (i, c)
  }

  /** Pairs of an eligible hit and a chamber entry with the same raw id. */
  ghost function CandidatePairs(hits: seq<Hit>, chambers: seq<ChamberMatch>): set<(int, int)>
  {
    set i, c | 0 <= i < |hits| && 0 <= c < |chambers|
               && IsMuonChamberHit(hits[i]) && chambers[c].rawId == hits[i].id.rawId
      :: (i, c)
  }

  ghost function RowPairs(i: int, h: Hit, chambers: seq<ChamberMatch>, tol: real): set<(int, int)>
  {
    set c | 0 <= c < |chambers| && ChamberMatchesHit(chambers[c], h, tol) :: (i, c)
  }

  /**
    `getMatches`: −1 for a muon that is not an arbitrated tracker muon, whatever
    the DSA track holds; otherwise the number of coinciding (hit, chamber) pairs.
   */
  function GetMatches(muon: Muon, dsa: DsaTrack, tol: real): (r: int)
    ensures r == -1 <==> !IsArbitratedTrackerMuon(muon)
    ensures IsArbitratedTrackerMuon(muon) ==> r == |MatchedPairs(dsa.hits, muon.chambers, tol)|
  {
    if !IsArbitratedTrackerMuon(muon) then -1
    else
      MatchCountIsMatchedPairs(dsa.hits, muon.chambers, tol);
      MatchCount(dsa.hits, muon.chambers, tol)
  }

  lemma {:induction false} ChamberCountIsRowSize(i: int, h: Hit, chambers: seq<ChamberMatch>, tol: real)
    ensures ChamberCount(chambers, h, tol) == |RowPairs(i, h, chambers, tol)|
  {
    if |chambers| == 0 {
      assert RowPairs(i, h, chambers, tol) == {};
    } else {
      var n := |chambers|;
      var pre := chambers[..n - 1];
      ChamberCountIsRowSize(i, h, pre, tol);
      if ChamberMatchesHit(chambers[n - 1], h, tol) {
        assert RowPairs(i, h, chambers, tol) == RowPairs(i, h, pre, tol) + {(i, n - 1)};
      } else {
        assert RowPairs(i, h, chambers, tol) == RowPairs(i, h, pre, tol);
      }
    }
  }

  /** The recursive count equals the size of the reference pair set. */
  lemma {:induction false} MatchCountIsMatchedPairs(hits: seq<Hit>, chambers: seq<ChamberMatch>, tol: real)
    ensures MatchCount(hits, chambers, tol) == |MatchedPairs(hits, chambers, tol)|
  {
    if |hits| == 0 {
      assert MatchedPairs(hits, chambers, tol) == {};
    } else {
      var n := |hits|;
      var pre := hits[..n - 1];
      var h := hits[n - 1];
      MatchCountIsMatchedPairs(pre, chambers, tol);
      var row: set<(int, int)> := if IsMuonChamberHit(h) then RowPairs(n - 1, h, chambers, tol) else {};
      ChamberCountIsRowSize(n - 1, h, chambers, tol);
      MatchedPairsSnoc(hits, chambers, tol);
      assert MatchedPairs(pre, chambers, tol) * row == {};
    }
  }

  lemma MatchedPairsSnoc(hits: seq<Hit>, chambers: seq<ChamberMatch>, tol: real)
    requires |hits| > 0
    ensures
      var n := |hits|;
      var h := hits[n - 1];
      MatchedPairs(hits, chambers, tol)
      == MatchedPairs(hits[..n - 1], chambers, tol)
         + (if IsMuonChamberHit(h) then RowPairs(n - 1, h, chambers, tol) else {})
  {
    var n := |hits|;
    var pre := hits[..n - 1];
    var h := hits[n - 1];
    var all := MatchedPairs(hits, chambers, tol);
    var prefixPairs := MatchedPairs(pre, chambers, tol);
    var row: set<(int, int)> := if IsMuonChamberHit(h) then RowPairs(n - 1, h, chambers, tol) else {};
    forall p | p in all ensures p in prefixPairs + row {
      var (i, c) := p;
      if i < n - 1 {
        assert pre[i] == hits[i];
      }
    }
    forall p | p in prefixPairs + row ensures p in all {
      var (i, c) := p;
      if p in prefixPairs {
        assert pre[i] == hits[i];
      }
    }
  }

  /**
    A hit adds at most one per chamber entry with its raw id, so the count never
    exceeds the number of (eligible hit, chamber with equal raw id) pairs.
   */
  lemma MatchCountBound(hits: seq<Hit>, chambers: seq<ChamberMatch>, tol: real)
    ensures MatchCount(hits, chambers, tol) <= |CandidatePairs(hits, chambers)|
  {
    MatchCountIsMatchedPairs(hits, chambers, tol);
    var m := MatchedPairs(hits, chambers, tol);
    var c := CandidatePairs(hits, chambers);
    assert m <= c;
    assert c == m + (c - m);
  }

  lemma {:induction false} MatchCountAppend(a: seq<Hit>, b: seq<Hit>, chambers: seq<ChamberMatch>, tol: real)
    ensures MatchCount(a + b, chambers, tol) == MatchCount(a, chambers, tol) + MatchCount(b, chambers, tol)
    decreases |b|
  {
    if |b| == 0 {
      assert a + b == a;
    } else {
      var n := |b|;
      assert (a + b)[..|a + b| - 1] == a + b[..n - 1];
      assert (a + b)[|a + b| - 1] == b[n - 1];
      MatchCountAppend(a, b[..n - 1], chambers, tol);
    }
  }

  /** Invalid hits, non-muon hits and muon hits outside DT/CSC change nothing. */
  lemma IneligibleHitContributesNothing(muon: Muon, a: seq<Hit>, h: Hit, b: seq<Hit>, tol: real)
    requires !IsMuonChamberHit(h)
    ensures GetMatches(muon, DsaTrack(a + [h] + b), tol) == GetMatches(muon, DsaTrack(a + b), tol)
  {
    var cs := muon.chambers;
    MatchCountAppend(a + [h], b, cs, tol);
    MatchCountAppend(a, [h], cs, tol);
    MatchCountAppend(a, b, cs, tol);
    assert [h][..0] == [];
  }

  /**
    Strictness: when every segment is at least `tol` away from every hit on some
    axis, an arbitrated muon gets zero matches.
   */
  lemma NoCloseSegmentNoMatches(muon: Muon, dsa: DsaTrack, tol: real)
    requires IsArbitratedTrackerMuon(muon)
    requires forall i, c, k :: 0 <= i < |dsa.hits| && 0 <= c < |muon.chambers| && 0 <= k < |muon.chambers[c].segments|
               ==> Abs(muon.chambers[c].segments[k].x - dsa.hits[i].x) >= tol
                   || Abs(muon.chambers[c].segments[k].y - dsa.hits[i].y) >= tol
    ensures GetMatches(muon, dsa, tol) == 0
  {
    assert MatchedPairs(dsa.hits, muon.chambers, tol) == {};
  }

  /**
    One eligible hit against one chamber of the same raw id holding one
    segment: a match exactly when both differences are strictly below `tol`.
   */
  lemma SingleSegmentMatchIff(muon: Muon, h: Hit, s: Segment, tol: real)
    requires IsArbitratedTrackerMuon(muon) && IsMuonChamberHit(h)
    requires muon.chambers == [ChamberMatch(h.id.rawId, [s])]
    ensures GetMatches(muon, DsaTrack([h]), tol) == 1 <==> Abs(s.x - h.x) < tol && Abs(s.y - h.y) < tol
    ensures GetMatches(muon, DsaTrack([h]), tol) != 1 ==> GetMatches(muon, DsaTrack([h]), tol) == 0
  {
    var cs := muon.chambers;
    assert [h][..0] == [];
    assert cs[..0] == [];
    assert HasCloseSegment([s], h, tol) <==> WithinTolerance(s, h, tol) by {
      if WithinTolerance(s, h, tol) {
        assert WithinTolerance([s][0], h, tol);
      }
    }
    assert ChamberCount(cs, h, tol) == (if WithinTolerance(s, h, tol) then 1 else 0);
    assert MatchCount([h], cs, tol) == ChamberCount(cs, h, tol);
  }

  /**
    A worked case: segments (1.0, 2.0) and (3.0, 4.0) in chamber 5; DSA hits
    (1.0000001, 2.0000001) and (9.0, 9.0) in chamber 5 and (1.0, 2.0) in
    chamber 7. Only the first hit matches; the chamber-7 hit has no chamber.
   */
  lemma WorkedExampleOneMatch()
    ensures
      var dt := DetId(MuonDet, DTSubdet, 5);
      var other := DetId(MuonDet, DTSubdet, 7);
      var muon := Muon(true, true, [ChamberMatch(5, [Segment(1.0, 2.0), Segment(3.0, 4.0)])], None, None);
      var dsa := DsaTrack([Hit(true, dt, 1.0000001, 2.0000001), Hit(true, dt, 9.0, 9.0), Hit(true, other, 1.0, 2.0)]);
      GetMatches(muon, dsa, MinPositionDiffForMatching) == 1
  {
    var dt := DetId(MuonDet, DTSubdet, 5);
    var other := DetId(MuonDet, DTSubdet, 7);
    var segs := [Segment(1.0, 2.0), Segment(3.0, 4.0)];
    var cs := [ChamberMatch(5, segs)];
    var muon := Muon(true, true, cs, None, None);
    var h0 := Hit(true, dt, 1.0000001, 2.0000001);
    var h1 := Hit(true, dt, 9.0, 9.0);
    var h2 := Hit(true, other, 1.0, 2.0);
    var hits := [h0, h1, h2];
    var tol := MinPositionDiffForMatching;
    assert WithinTolerance(segs[0], h0, tol);
    assert !HasCloseSegment(segs, h1, tol) by {
      forall k | 0 <= k < |segs| ensures !WithinTolerance(segs[k], h1, tol) { }
    }
    assert MatchedPairs(hits, cs, tol) == {(0, 0)};
  }

  /**
    The nested loops of `getMatches` as written: early return for a muon that is
    not an arbitrated tracker muon, the eligibility filter on each hit, the raw
    id filter on each chamber, and a `break` out of the segment loop on the
    first close segment.
   */
  method CountMatches(muon: Muon, dsa: DsaTrack, tol: real) returns (nMatches: int)
    ensures nMatches == GetMatches(muon, dsa, tol)
  {
    nMatches := 0;
    if !(muon.isTrackerMuon && muon.goodTrackerMuonArbitrated) {
      return -1;
    }
    var hits := dsa.hits;
    var chambers := muon.chambers;
    var i := 0;
    while i < |hits|
      invariant 0 <= i <= |hits|
      invariant nMatches == MatchCount(hits[..i], chambers, tol)
    {
      var hit := hits[i];
      assert hits[..i + 1][..i] == hits[..i];
      if hit.valid && hit.id.det == MuonDet && (hit.id.subdet == DTSubdet || hit.id.subdet == CSCSubdet) {
        var before := nMatches;
        var c := 0;
        while c < |chambers|
          invariant 0 <= c <= |chambers|
          invariant nMatches == before + ChamberCount(chambers[..c], hit, tol)
        {
          var chamber := chambers[c];
          assert chambers[..c + 1][..c] == chambers[..c];
          if chamber.rawId == hit.id.rawId {
            var segments := chamber.segments;
            var atChamber := nMatches;
            var k := 0;
            while k < |segments|
              invariant 0 <= k <= |segments|
              invariant nMatches == atChamber
              invariant forall j :: 0 <= j < k ==> !WithinTolerance(segments[j], hit, tol)
            {
              if Abs(segments[k].x - hit.x) < tol && Abs(segments[k].y - hit.y) < tol {
                nMatches := nMatches + 1;
                break;
              }
              k := k + 1;
            }
            assert nMatches == atChamber + (if ChamberMatchesHit(chamber, hit, tol) then 1 else 0);
          }
          c := c + 1;
        }
        assert chambers[..c] == chambers;
      }
      i := i + 1;
    }
    assert hits[..i] == hits;
  }
}
