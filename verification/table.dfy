/**
  The per-muon loop of `produce` as far as column bookkeeping goes. Every
  muon gets an `idx` entry. Muons whose best track is null are skipped after
  that (`continue`), so the `push_back` columns only receive rows for muons
  with a best track, while the pre-sized columns keep one −1 entry per muon
  and are overwritten at the muon's own index when their guard holds.

  `dsaMatches[k]` holds the five ranked (count, index) pairs of row k; the
  ten columns `dsaMatch1` … `dsaMatch5idx` are its projections.
 */
module Table {
  import opened MuonData
  import opened Matching
  import opened Ranking

  /** Default of the pre-sized columns. */
  const Missing: real := -1.0
  const MissingCount: int := -1

  /** `push_back` columns copied from the best track. */
  datatype TrackColumns = TrackColumns(
    trkPt: seq<real>,
    trkPtErr: seq<real>,
    trkNumPlanes: seq<int>,
    trkNumHits: seq<int>,
    trkNumDTHits: seq<int>,
    trkNumCSCHits: seq<int>,
    normChi2: seq<real>)

  /** Pre-sized columns guarded by the outer-position availability. */
  datatype OuterColumns = OuterColumns(outerEta: seq<real>, outerPhi: seq<real>)

  /** Pre-sized columns guarded by the inner-track availability. */
  datatype InnerColumns = InnerColumns(
    innerVx: seq<real>,
    innerVy: seq<real>,
    innerVz: seq<real>,
    innerPt: seq<real>,
    innerEta: seq<real>,
    innerPhi: seq<real>,
    trkNumPixelHits: seq<int>,
    trkNumTrkLayers: seq<int>)

  /** `push_back` columns of the DSA matching. */
  datatype MatchColumns = MatchColumns(nMatchesPerDsa: seq<seq<int>>, dsaMatches: seq<seq<MatchPair>>)

  datatype MuonTable = MuonTable(
    idx: seq<int>,
    track: TrackColumns,
    outer: OuterColumns,
    inner: InnerColumns,
    matches: MatchColumns)

  /** Guard of the `outerEta` / `outerPhi` overwrite (reached only with a best track). */
  predicate OuterGuard(m: Muon) {
    && m.bestTrack.Some?
    && m.bestTrack.value.extraNonnull
    && m.bestTrack.value.extraAvailable
    && m.bestTrack.value.outerOk
  }

  /** Guard of the `inner*`, `trkNumPixelHits`, `trkNumTrkLayers` overwrite. */
  predicate InnerGuard(m: Muon) {
    m.bestTrack.Some? && m.innerTrack.Some?
  }

  predicate AllTracked(ms: seq<Muon>) {
    forall i :: 0 <= i < |ms| ==> ms[i].bestTrack.Some?
  }

  /** The muons that reach the `push_back` statements, in order. */
  function Tracked(ms: seq<Muon>): (t: seq<Muon>)
    ensures |t| <= |ms|
    ensures forall k :: 0 <= k < |t| ==> t[k].bestTrack.Some?
  {
    if |ms| == 0 then []
    else Tracked(ms[..|ms| - 1]) + (if ms[|ms| - 1].bestTrack.Some? then [ms[|ms| - 1]] else [])
  }

  predicate TrackRows(c: TrackColumns, n: nat) {
    && |c.trkPt| == n && |c.trkPtErr| == n && |c.trkNumPlanes| == n && |c.trkNumHits| == n
    && |c.trkNumDTHits| == n && |c.trkNumCSCHits| == n && |c.normChi2| == n
  }

  predicate OuterRows(c: OuterColumns, n: nat) {
    |c.outerEta| == n && |c.outerPhi| == n
  }

  predicate InnerRows(c: InnerColumns, n: nat) {
    && |c.innerVx| == n && |c.innerVy| == n && |c.innerVz| == n
    && |c.innerPt| == n && |c.innerEta| == n && |c.innerPhi| == n
    && |c.trkNumPixelHits| == n && |c.trkNumTrkLayers| == n
  }

  predicate MatchRows(c: MatchColumns, n: nat) {
    |c.nMatchesPerDsa| == n && |c.dsaMatches| == n
  }

  /** Every column has exactly one entry per muon. */
  predicate ColumnsAligned(t: MuonTable, nMuons: nat) {
    && |t.idx| == nMuons
    && TrackRows(t.track, nMuons)
    && OuterRows(t.outer, nMuons)
    && InnerRows(t.inner, nMuons)
    && MatchRows(t.matches, nMuons)
  }

  /** Row k of the outer group: the outer position when the guard holds, −1 otherwise. */
  predicate OuterEntry(c: OuterColumns, k: nat, m: Muon)
    requires k < |c.outerEta| && k < |c.outerPhi|
  {
    if OuterGuard(m) then
      c.outerEta[k] == m.bestTrack.value.outerEta && c.outerPhi[k] == m.bestTrack.value.outerPhi
    else
      c.outerEta[k] == Missing && c.outerPhi[k] == Missing
  }

  /** Row k of the inner group: the inner-track values when the guard holds, −1 otherwise. */
  predicate InnerEntry(c: InnerColumns, k: nat, m: Muon)
    requires InnerRows(c, |c.innerVx|) && k < |c.innerVx|
  {
    if InnerGuard(m) then
      var inner := m.innerTrack.value;
      && c.innerVx[k] == inner.vx && c.innerVy[k] == inner.vy && c.innerVz[k] == inner.vz
      && c.innerPt[k] == inner.pt && c.innerEta[k] == inner.eta && c.innerPhi[k] == inner.phi
      && c.trkNumPixelHits[k] == inner.validPixelHits
      && c.trkNumTrkLayers[k] == inner.trackerLayersWithMeasurement
    else
      && c.innerVx[k] == Missing && c.innerVy[k] == Missing && c.innerVz[k] == Missing
      && c.innerPt[k] == Missing && c.innerEta[k] == Missing && c.innerPhi[k] == Missing
      && c.trkNumPixelHits[k] == MissingCount && c.trkNumTrkLayers[k] == MissingCount
  }

  /** Row k of the track group: the best-track values of muon m. */
  predicate TrackEntry(c: TrackColumns, k: nat, m: Muon)
    requires TrackRows(c, |c.trkPt|) && k < |c.trkPt| && m.bestTrack.Some?
  {
    var b := m.bestTrack.value;
    && c.trkPt[k] == b.pt && c.trkPtErr[k] == b.ptError
    && c.trkNumPlanes[k] == b.muonStationsWithValidHits && c.trkNumHits[k] == b.validMuonHits
    && c.trkNumDTHits[k] == b.validMuonDTHits && c.trkNumCSCHits[k] == b.validMuonCSCHits
    && c.normChi2[k] == b.normalizedChi2
  }

  /** Row k of the track group of the corrected table for a muon without a best track. */
  predicate MissingTrackEntry(c: TrackColumns, k: nat)
    requires TrackRows(c, |c.trkPt|) && k < |c.trkPt|
  {
    && c.trkPt[k] == Missing && c.trkPtErr[k] == Missing
    && c.trkNumPlanes[k] == MissingCount && c.trkNumHits[k] == MissingCount
    && c.trkNumDTHits[k] == MissingCount && c.trkNumCSCHits[k] == MissingCount
    && c.normChi2[k] == Missing
  }

  /** Row k of the matching group: muon m's raw counts and its ranked pairs. */
  predicate MatchEntry(c: MatchColumns, k: nat, m: Muon, dsas: seq<DsaTrack>)
    requires MatchRows(c, |c.nMatchesPerDsa|) && k < |c.nMatchesPerDsa|
  {
    && c.nMatchesPerDsa[k] == RawCounts(m, dsas, MinPositionDiffForMatching)
    && c.dsaMatches[k] == RankedMatches(m, dsas, MinPositionDiffForMatching)
  }

  /**
    The table the per-muon loop as written leaves behind: `idx` and the
    pre-sized groups have one entry per muon, while the `push_back` groups
    have one row per muon with a best track, in collection order.
   */
  predicate AsWrittenLayout(muons: seq<Muon>, dsas: seq<DsaTrack>, t: MuonTable) {
    var ts := Tracked(muons);
    && |t.idx| == |muons| && (forall i :: 0 <= i < |muons| ==> t.idx[i] == i)
    && OuterRows(t.outer, |muons|) && InnerRows(t.inner, |muons|)
    && (forall i :: 0 <= i < |muons| ==> OuterEntry(t.outer, i, muons[i]) && InnerEntry(t.inner, i, muons[i]))
    && TrackRows(t.track, |ts|) && MatchRows(t.matches, |ts|)
    && (forall k :: 0 <= k < |ts| ==> TrackEntry(t.track, k, ts[k]) && MatchEntry(t.matches, k, ts[k], dsas))
  }

  /** The outer group once the first `done` muons have been processed. */
  function OuterColumnsUpTo(ms: seq<Muon>, done: nat): OuterColumns {
    var n := |ms|;
    OuterColumns(
      seq(n, k requires 0 <= k < n =>
        if k < done && OuterGuard(ms[k]) then ms[k].bestTrack.value.outerEta else Missing),
      seq(n, k requires 0 <= k < n =>
        if k < done && OuterGuard(ms[k]) then ms[k].bestTrack.value.outerPhi else Missing))
  }

  /** The inner group once the first `done` muons have been processed. */
  function InnerColumnsUpTo(ms: seq<Muon>, done: nat): InnerColumns {
    var n := |ms|;
    InnerColumns(
      seq(n, k requires 0 <= k < n => if k < done && InnerGuard(ms[k]) then ms[k].innerTrack.value.vx else Missing),
      seq(n, k requires 0 <= k < n => if k < done && InnerGuard(ms[k]) then ms[k].innerTrack.value.vy else Missing),
      seq(n, k requires 0 <= k < n => if k < done && InnerGuard(ms[k]) then ms[k].innerTrack.value.vz else Missing),
      seq(n, k requires 0 <= k < n => if k < done && InnerGuard(ms[k]) then ms[k].innerTrack.value.pt else Missing),
      seq(n, k requires 0 <= k < n => if k < done && InnerGuard(ms[k]) then ms[k].innerTrack.value.eta else Missing),
      seq(n, k requires 0 <= k < n => if k < done && InnerGuard(ms[k]) then ms[k].innerTrack.value.phi else Missing),
      seq(n, k requires 0 <= k < n =>
        if k < done && InnerGuard(ms[k]) then ms[k].innerTrack.value.validPixelHits else MissingCount),
      seq(n, k requires 0 <= k < n =>
        if k < done && InnerGuard(ms[k]) then ms[k].innerTrack.value.trackerLayersWithMeasurement else MissingCount))
  }

  /** Track columns holding one row per muon of `ts`, all of which have a best track. */
  function TrackColumnsOf(ts: seq<Muon>): TrackColumns
    requires forall k :: 0 <= k < |ts| ==> ts[k].bestTrack.Some?
  {
    var n := |ts|;
    TrackColumns(
      seq(n, k requires 0 <= k < n => ts[k].bestTrack.value.pt),
      seq(n, k requires 0 <= k < n => ts[k].bestTrack.value.ptError),
      seq(n, k requires 0 <= k < n => ts[k].bestTrack.value.muonStationsWithValidHits),
      seq(n, k requires 0 <= k < n => ts[k].bestTrack.value.validMuonHits),
      seq(n, k requires 0 <= k < n => ts[k].bestTrack.value.validMuonDTHits),
      seq(n, k requires 0 <= k < n => ts[k].bestTrack.value.validMuonCSCHits),
      seq(n, k requires 0 <= k < n => ts[k].bestTrack.value.normalizedChi2))
  }

  /** Matching columns holding one row per muon of `ms`. */
  function MatchColumnsOf(ms: seq<Muon>, dsas: seq<DsaTrack>): MatchColumns {
    var n := |ms|;
    MatchColumns(
      seq(n, k requires 0 <= k < n => RawCounts(ms[k], dsas, MinPositionDiffForMatching)),
      seq(n, k requires 0 <= k < n => RankedMatches(ms[k], dsas, MinPositionDiffForMatching)))
  }

  /** Track columns with one row per muon and −1 for a muon without a best track. */
  function AlignedTrackColumns(ms: seq<Muon>): (c: TrackColumns)
    ensures TrackRows(c, |ms|)
    ensures forall i :: 0 <= i < |ms| ==>
              if ms[i].bestTrack.Some? then TrackEntry(c, i, ms[i]) else MissingTrackEntry(c, i)
  {
    var n := |ms|;
    TrackColumns(
      seq(n, k requires 0 <= k < n => if ms[k].bestTrack.Some? then ms[k].bestTrack.value.pt else Missing),
      seq(n, k requires 0 <= k < n => if ms[k].bestTrack.Some? then ms[k].bestTrack.value.ptError else Missing),
      seq(n, k requires 0 <= k < n =>
        if ms[k].bestTrack.Some? then ms[k].bestTrack.value.muonStationsWithValidHits else MissingCount),
      seq(n, k requires 0 <= k < n =>
        if ms[k].bestTrack.Some? then ms[k].bestTrack.value.validMuonHits else MissingCount),
      seq(n, k requires 0 <= k < n =>
        if ms[k].bestTrack.Some? then ms[k].bestTrack.value.validMuonDTHits else MissingCount),
      seq(n, k requires 0 <= k < n =>
        if ms[k].bestTrack.Some? then ms[k].bestTrack.value.validMuonCSCHits else MissingCount),
      seq(n, k requires 0 <= k < n => if ms[k].bestTrack.Some? then ms[k].bestTrack.value.normalizedChi2 else Missing))
  }

  /** `Tracked` keeps exactly the muons with a best track. */
  lemma {:induction false} TrackedMembers(ms: seq<Muon>)
    ensures forall m :: m in Tracked(ms) <==> m in ms && m.bestTrack.Some?
  {
    if |ms| > 0 {
      var pre := ms[..|ms| - 1];
      TrackedMembers(pre);
      assert ms == pre + [ms[|ms| - 1]];
    }
  }

  lemma {:induction false} TrackedFullIffAllTracked(ms: seq<Muon>)
    ensures |Tracked(ms)| == |ms| <==> AllTracked(ms)
    ensures AllTracked(ms) ==> Tracked(ms) == ms
  {
    if |ms| > 0 {
      var pre := ms[..|ms| - 1];
      TrackedFullIffAllTracked(pre);
      assert ms == pre + [ms[|ms| - 1]];
      if AllTracked(ms) {
        assert AllTracked(pre) by {
          forall i | 0 <= i < |pre| ensures pre[i].bestTrack.Some? {
            assert pre[i] == ms[i];
          }
        }
      }
      if AllTracked(pre) && ms[|ms| - 1].bestTrack.Some? {
        assert AllTracked(ms) by {
          forall i | 0 <= i < |ms| ensures ms[i].bestTrack.Some? {
            if i < |pre| {
              assert pre[i] == ms[i];
            }
          }
        }
      }
    }
  }

  /**
    The as-written `push_back` columns are shorter than the muon collection
    exactly when some muon has a null best track.
   */
  lemma ShortColumnsIffUntrackedMuon(ms: seq<Muon>)
    ensures |Tracked(ms)| < |ms| <==> exists i :: 0 <= i < |ms| && ms[i].bestTrack.None?
  {
    TrackedFullIffAllTracked(ms);
  }

  /**
    The corrected table: every column has one entry per muon; a muon without a
    best track gets −1 in the track columns instead of losing its row, and the
    matching columns are filled for every muon.
   */
  function ProduceAligned(muons: seq<Muon>, dsas: seq<DsaTrack>): (t: MuonTable)
    ensures ColumnsAligned(t, |muons|)
    ensures forall i :: 0 <= i < |muons| ==>
              && t.idx[i] == i
              && OuterEntry(t.outer, i, muons[i])
              && InnerEntry(t.inner, i, muons[i])
              && MatchEntry(t.matches, i, muons[i], dsas)
              && if muons[i].bestTrack.Some? then TrackEntry(t.track, i, muons[i]) else MissingTrackEntry(t.track, i)
  {
    var n := |muons|;
    PresizedEntries(muons);
    MuonTable(
      seq(n, i => i),
      AlignedTrackColumns(muons),
      OuterColumnsUpTo(muons, n),
      InnerColumnsUpTo(muons, n),
      MatchColumnsOf(muons, dsas))
  }

  lemma TrackedSnoc(ms: seq<Muon>, i: nat)
    requires i < |ms|
    ensures Tracked(ms[..i + 1]) == Tracked(ms[..i]) + (if ms[i].bestTrack.Some? then [ms[i]] else [])
  {
    assert ms[..i + 1][..i] == ms[..i];
  }

  lemma TrackColumnsSnoc(ts: seq<Muon>, m: Muon)
    requires forall k :: 0 <= k < |ts| ==> ts[k].bestTrack.Some?
    requires m.bestTrack.Some?
    ensures var c := TrackColumnsOf(ts); var b := m.bestTrack.value;
      TrackColumnsOf(ts + [m])
      == TrackColumns(c.trkPt + [b.pt], c.trkPtErr + [b.ptError],
                      c.trkNumPlanes + [b.muonStationsWithValidHits], c.trkNumHits + [b.validMuonHits],
                      c.trkNumDTHits + [b.validMuonDTHits], c.trkNumCSCHits + [b.validMuonCSCHits],
                      c.normChi2 + [b.normalizedChi2])
  {
  }

  lemma MatchColumnsSnoc(ms: seq<Muon>, m: Muon, dsas: seq<DsaTrack>)
    ensures var c := MatchColumnsOf(ms, dsas);
      MatchColumnsOf(ms + [m], dsas)
      == MatchColumns(c.nMatchesPerDsa + [RawCounts(m, dsas, MinPositionDiffForMatching)],
                      c.dsaMatches + [RankedMatches(m, dsas, MinPositionDiffForMatching)])
  {
  }

  lemma OuterStep(ms: seq<Muon>, i: nat)
    requires i < |ms|
    ensures var c := OuterColumnsUpTo(ms, i); var m := ms[i];
      OuterColumnsUpTo(ms, i + 1)
      == if OuterGuard(m) then
           c.(outerEta := c.outerEta[i := m.bestTrack.value.outerEta],
              outerPhi := c.outerPhi[i := m.bestTrack.value.outerPhi])
         else c
  {
  }

  lemma InnerStep(ms: seq<Muon>, i: nat)
    requires i < |ms|
    ensures var c := InnerColumnsUpTo(ms, i); var m := ms[i];
      InnerColumnsUpTo(ms, i + 1)
      == if InnerGuard(m) then
           var it := m.innerTrack.value;
           c.(innerVx := c.innerVx[i := it.vx], innerVy := c.innerVy[i := it.vy],
              innerVz := c.innerVz[i := it.vz], innerPt := c.innerPt[i := it.pt],
              innerEta := c.innerEta[i := it.eta], innerPhi := c.innerPhi[i := it.phi],
              trkNumPixelHits := c.trkNumPixelHits[i := it.validPixelHits],
              trkNumTrkLayers := c.trkNumTrkLayers[i := it.trackerLayersWithMeasurement])
         else c
  {
  }

  /** The as-written column lengths line up exactly when every muon has a best track. */
  lemma AsWrittenAlignedIffAllTracked(muons: seq<Muon>, t: MuonTable)
    requires |t.idx| == |muons| && OuterRows(t.outer, |muons|) && InnerRows(t.inner, |muons|)
    requires TrackRows(t.track, |Tracked(muons)|) && MatchRows(t.matches, |Tracked(muons)|)
    ensures ColumnsAligned(t, |muons|) <==> AllTracked(muons)
  {
    TrackedFullIffAllTracked(muons);
  }

  /** A muon with a null best track changes no column except `idx`. */
  lemma SkipLeavesColumns(muons: seq<Muon>, dsas: seq<DsaTrack>, i: nat)
    requires i < |muons| && muons[i].bestTrack.None?
    ensures Tracked(muons[..i + 1]) == Tracked(muons[..i])
    ensures OuterColumnsUpTo(muons, i + 1) == OuterColumnsUpTo(muons, i)
    ensures InnerColumnsUpTo(muons, i + 1) == InnerColumnsUpTo(muons, i)
  {
    TrackedSnoc(muons, i);
    OuterStep(muons, i);
    InnerStep(muons, i);
  }

  /** The `push_back` of the best-track values of muon i, which has a best track. */
  method PushTrackRow(muons: seq<Muon>, i: nat, track: TrackColumns) returns (r: TrackColumns)
    requires i < |muons| && muons[i].bestTrack.Some?
    requires track == TrackColumnsOf(Tracked(muons[..i]))
    ensures r == TrackColumnsOf(Tracked(muons[..i + 1]))
  {
    TrackedSnoc(muons, i);
    TrackColumnsSnoc(Tracked(muons[..i]), muons[i]);
    var b := muons[i].bestTrack.value;
    r := track.(trkPt := track.trkPt + [b.pt], trkPtErr := track.trkPtErr + [b.ptError]);
    r := r.(trkNumPlanes := r.trkNumPlanes + [b.muonStationsWithValidHits],
            trkNumHits := r.trkNumHits + [b.validMuonHits],
            trkNumDTHits := r.trkNumDTHits + [b.validMuonDTHits],
            trkNumCSCHits := r.trkNumCSCHits + [b.validMuonCSCHits]);
    r := r.(normChi2 := r.normChi2 + [b.normalizedChi2]);
  }

  /** The guarded overwrite of `outerEta[i]` / `outerPhi[i]` for muon i, which has a best track. */
  method OverwriteOuter(muons: seq<Muon>, i: nat, outer: OuterColumns) returns (r: OuterColumns)
    requires i < |muons| && muons[i].bestTrack.Some?
    requires outer == OuterColumnsUpTo(muons, i)
    ensures r == OuterColumnsUpTo(muons, i + 1)
  {
    OuterStep(muons, i);
    var b := muons[i].bestTrack.value;
    r := outer;
    if b.extraNonnull && b.extraAvailable && b.outerOk {
      r := r.(outerEta := r.outerEta[i := b.outerEta], outerPhi := r.outerPhi[i := b.outerPhi]);
    }
  }

  /** The guarded overwrite of the inner-track group at index i for muon i, which has a best track. */
  method OverwriteInner(muons: seq<Muon>, i: nat, inner: InnerColumns) returns (r: InnerColumns)
    requires i < |muons| && muons[i].bestTrack.Some?
    requires inner == InnerColumnsUpTo(muons, i)
    ensures r == InnerColumnsUpTo(muons, i + 1)
  {
    InnerStep(muons, i);
    r := inner;
    if muons[i].innerTrack.Some? {
      var it := muons[i].innerTrack.value;
      r := r.(innerVx := r.innerVx[i := it.vx], innerVy := r.innerVy[i := it.vy],
              innerVz := r.innerVz[i := it.vz], innerPt := r.innerPt[i := it.pt],
              innerEta := r.innerEta[i := it.eta], innerPhi := r.innerPhi[i := it.phi],
              trkNumPixelHits := r.trkNumPixelHits[i := it.validPixelHits],
              trkNumTrkLayers := r.trkNumTrkLayers[i := it.trackerLayersWithMeasurement]);
    }
  }

  /** The DSA ranking of muon i and the `push_back` of its raw counts and ranked pairs. */
  method PushMatchRow(muons: seq<Muon>, dsas: seq<DsaTrack>, i: nat, matches: MatchColumns) returns (r: MatchColumns)
    requires i < |muons| && muons[i].bestTrack.Some?
    requires matches == MatchColumnsOf(Tracked(muons[..i]), dsas)
    ensures r == MatchColumnsOf(Tracked(muons[..i + 1]), dsas)
  {
    TrackedSnoc(muons, i);
    MatchColumnsSnoc(Tracked(muons[..i]), muons[i], dsas);
    var nDsaMatches, ranked := RankDsaTracks(muons[i], dsas, MinPositionDiffForMatching);
    assert nDsaMatches == RawCounts(muons[i], dsas, MinPositionDiffForMatching);
    r := matches.(nMatchesPerDsa := matches.nMatchesPerDsa + [nDsaMatches],
                  dsaMatches := matches.dsaMatches + [ranked]);
  }

  /**
    The per-muon loop as written: `idx` for every muon, `continue` on a null
    best track, `push_back` of the track columns and of the DSA matching
    results, and guarded overwrites of the pre-sized columns at index i.
   */
  method FillColumns(muons: seq<Muon>, dsas: seq<DsaTrack>) returns (t: MuonTable)
    ensures AsWrittenLayout(muons, dsas, t)
  {
    var n := |muons|;
    var idx: seq<int> := [];
    var track := TrackColumns([], [], [], [], [], [], []);
    var outer := OuterColumnsUpTo(muons, 0);
    var inner := InnerColumnsUpTo(muons, 0);
    var matches := MatchColumns([], []);
    var i := 0;
    while i < n
      invariant 0 <= i <= n
      invariant |idx| == i && forall k :: 0 <= k < i ==> idx[k] == k
      invariant outer == OuterColumnsUpTo(muons, i)
      invariant inner == InnerColumnsUpTo(muons, i)
      invariant track == TrackColumnsOf(Tracked(muons[..i]))
      invariant matches == MatchColumnsOf(Tracked(muons[..i]), dsas)
    {
      var muon := muons[i];
      idx := idx + [i];
      if muon.bestTrack.None? {
        SkipLeavesColumns(muons, dsas, i);
        i := i + 1;
        continue;
      }
      track := PushTrackRow(muons, i, track);
      outer := OverwriteOuter(muons, i, outer);
      inner := OverwriteInner(muons, i, inner);
      matches := PushMatchRow(muons, dsas, i, matches);
      i := i + 1;
    }
    assert muons[..n] == muons;
    PresizedEntries(muons);
    ReferenceEntries(Tracked(muons), dsas);
    t := MuonTable(idx, track, outer, inner, matches);
  }

  /**
    The producer's table as written: the loop's columns, aligned exactly when
    every muon has a best track, and then equal to the corrected table.
   */
  method Produce(muons: seq<Muon>, dsas: seq<DsaTrack>) returns (t: MuonTable)
    ensures AsWrittenLayout(muons, dsas, t)
    ensures ColumnsAligned(t, |muons|) <==> AllTracked(muons)
    ensures AllTracked(muons) ==> t == ProduceAligned(muons, dsas)
  {
    t := FillColumns(muons, dsas);
    AsWrittenAlignedIffAllTracked(muons, t);
    if AllTracked(muons) {
      AsWrittenIsCorrectedWhenAllTracked(muons, dsas, t);
    }
  }

  /**
    One muon with a null best track: the table as written has one `idx` entry
    and no `trkPt` or `nMatchesPerDSA` row, so it is not aligned.
   */
  lemma NullBestTrackShortensColumns(m: Muon, dsas: seq<DsaTrack>, t: MuonTable)
    requires m.bestTrack.None? && AsWrittenLayout([m], dsas, t)
    ensures |t.idx| == 1 && |t.track.trkPt| == 0 && |t.matches.nMatchesPerDsa| == 0
    ensures !ColumnsAligned(t, 1)
  {
    assert [m][..0] == [];
  }

  /** When every muon has a best track, the as-written table is the corrected one. */
  lemma AsWrittenIsCorrectedWhenAllTracked(muons: seq<Muon>, dsas: seq<DsaTrack>, t: MuonTable)
    requires AllTracked(muons) && AsWrittenLayout(muons, dsas, t)
    ensures t == ProduceAligned(muons, dsas)
  {
    TrackedFullIffAllTracked(muons);
    var n := |muons|;
    assert t.idx == seq(n, i => i);
    OuterGroupIsReference(muons, t.outer);
    InnerGroupIsReference(muons, t.inner);
    TrackGroupIsReference(muons, t.track);
    MatchGroupIsReference(muons, dsas, t.matches);
  }

  /** A pre-sized or `push_back` group is fixed by its row count and its rows. */
  lemma OuterGroupIsReference(muons: seq<Muon>, c: OuterColumns)
    requires OuterRows(c, |muons|)
    requires forall i :: 0 <= i < |muons| ==> OuterEntry(c, i, muons[i])
    ensures c == OuterColumnsUpTo(muons, |muons|)
  {
  }

  lemma InnerGroupIsReference(muons: seq<Muon>, c: InnerColumns)
    requires InnerRows(c, |muons|)
    requires forall i :: 0 <= i < |muons| ==> InnerEntry(c, i, muons[i])
    ensures c == InnerColumnsUpTo(muons, |muons|)
  {
  }

  lemma TrackGroupIsReference(muons: seq<Muon>, c: TrackColumns)
    requires AllTracked(muons) && TrackRows(c, |muons|)
    requires forall k :: 0 <= k < |muons| ==> TrackEntry(c, k, muons[k])
    ensures c == AlignedTrackColumns(muons)
  {
  }

  lemma MatchGroupIsReference(muons: seq<Muon>, dsas: seq<DsaTrack>, c: MatchColumns)
    requires MatchRows(c, |muons|)
    requires forall k :: 0 <= k < |muons| ==> MatchEntry(c, k, muons[k], dsas)
    ensures c == MatchColumnsOf(muons, dsas)
  {
  }

  /** The reference groups hold, row by row, the values of the muons they are built from. */
  lemma ReferenceEntries(ts: seq<Muon>, dsas: seq<DsaTrack>)
    requires forall k :: 0 <= k < |ts| ==> ts[k].bestTrack.Some?
    ensures TrackRows(TrackColumnsOf(ts), |ts|) && MatchRows(MatchColumnsOf(ts, dsas), |ts|)
    ensures forall k :: 0 <= k < |ts| ==>
              TrackEntry(TrackColumnsOf(ts), k, ts[k]) && MatchEntry(MatchColumnsOf(ts, dsas), k, ts[k], dsas)
  {
  }

  lemma PresizedEntries(muons: seq<Muon>)
    ensures var n := |muons|;
      && OuterRows(OuterColumnsUpTo(muons, n), n) && InnerRows(InnerColumnsUpTo(muons, n), n)
      && forall i :: 0 <= i < n ==>
           OuterEntry(OuterColumnsUpTo(muons, n), i, muons[i]) && InnerEntry(InnerColumnsUpTo(muons, n), i, muons[i])
  {
  }
}
