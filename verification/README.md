# Muon extended table: DSA matching, top-5 ranking and column alignment

This project models the discrete part of the `MuonExtendedTableProducer` plugin
of LLPNanoAOD. For every muon of an event, the plugin adds columns to the
muon NanoAOD table. The model covers three pieces of it:

- **Match counting** (`getMatches`). The plugin counts how many hits of a
  displaced standalone (DSA) track coincide with the chamber segments already
  matched to the muon. A hit counts when it is valid, in the muon system and in
  a DT or CSC chamber. It counts once for each chamber entry of the muon that
  has the same raw detector id and holds a segment within 1e-6 of the hit on
  both local axes. A muon that is not an arbitrated tracker muon gets −1.
- **Ranking**. Only the first five DSA tracks are evaluated. Each result goes
  into a five-slot array of (count, index) pairs whose default entry is
  (−1, −1). The array is then sorted with `std::sort` over reverse iterators.
  The result is non-increasing in lexicographic order, so among equal counts
  the higher index comes first. The raw counts of the evaluated tracks are
  kept as `nMatchesPerDSA`.
- **Column bookkeeping** in the per-muon loop. Every muon gets an `idx`
  entry. A muon with a null best track is then skipped with `continue`. The
  `push_back` columns therefore only get rows for muons that have a best track.
  The pre-sized columns (`outerEta`, `outerPhi`, `inner*`, `trkNumPixelHits`,
  `trkNumTrkLayers`) keep one −1 entry per muon. Entry i is overwritten only
  when muon i has a best track and the column group's guard holds.

Modules: `MuonData` holds the input records, `Matching` holds `getMatches`,
`Ranking` holds the DSA ranking, and `Table` holds the per-muon loop. Each
source loop has two forms in the model:

- a `method` that follows the loop as written (`break`, `continue`, in-place
  overwrites);
- a pure function or a reference definition that the method is proved to
  compute.

The match count is also tied to an independent definition: the set of
(hit index, chamber index) pairs that coincide.

The table is created with `nMuons` rows (line 223), and the pre-sized
columns keep one −1 entry per muon (lines 107-109). The per-muon loop does not
treat the `push_back` columns the same way: the `continue` at line 124 skips
every `push_back` for a muon with a null best track, so those vectors end up
with fewer entries than the table has rows. The model follows the code. The
discrepancy is listed under "## Findings", together with a corrected table in
which every column has one entry per muon.

## Model

| member | source | states |
|---|---|---|
| `Matching.GetMatches` | plugins/MuonExtendedTableProducer.cc:298-328 | The result is −1 exactly when the muon is not (tracker muon and TrackerMuonArbitrated), whatever the DSA track holds. Otherwise it is the number of (eligible hit, chamber entry) pairs in which the chamber has the hit's raw id and a segment within tolerance on both axes, so it is non-negative. |
| `Matching.CountMatches` | plugins/MuonExtendedTableProducer.cc:298-328 | The nested loops as written, with the early return, the eligibility and raw-id `continue`s and the `break` after the first close segment, compute `GetMatches`. |
| `Matching.MatchCountIsMatchedPairs` | plugins/MuonExtendedTableProducer.cc:304-326 | The count accumulated hit by hit equals the size of the set of coinciding (hit index, chamber index) pairs. Each hit therefore adds at most one per chamber entry. |
| `Matching.ChamberCountIsRowSize` | plugins/MuonExtendedTableProducer.cc:312-324 | For a single hit, the chamber loop adds exactly the number of chamber entries with the hit's raw id that hold a close segment. The `break` leaves the segment loop only, not the chamber loop. |
| `Matching.MatchCountBound` | plugins/MuonExtendedTableProducer.cc:312-323 | The count never exceeds the number of (eligible hit, chamber entry with the same raw id) pairs. |
| `Matching.IneligibleHitContributesNothing` | plugins/MuonExtendedTableProducer.cc:306-310 | Inserting an invalid hit, a non-muon hit or a muon hit outside DT/CSC anywhere in the DSA track leaves `getMatches` unchanged. |
| `Matching.NoCloseSegmentNoMatches` | plugins/MuonExtendedTableProducer.cc:318-319 | If every segment differs from every hit by at least the tolerance on some axis, an arbitrated muon gets 0 matches. A difference equal to the tolerance never matches. |
| `Matching.SingleSegmentMatchIff` | plugins/MuonExtendedTableProducer.cc:318-321 | Take one eligible hit and one chamber with the same raw id holding one segment. The count is 1 exactly when both differences are strictly below the tolerance, and 0 otherwise. |
| `Matching.WorkedExampleOneMatch` | plugins/MuonExtendedTableProducer.cc:304-327 | Chamber 5 holds segments (1,2) and (3,4). The hits are (1.0000001, 2.0000001) and (9,9) in chamber 5, and (1,2) in chamber 7. With tolerance 1e-6 the count is 1. |
| `Ranking.RankDsaTracks` | plugins/MuonExtendedTableProducer.cc:195-216 | The ranking block as written evaluates DSA tracks 0..min(n,5)−1 only. `nDsaMatches` has length min(n,5), and entry j is `getMatches` against DSA track j. The ranked array is the sorted five-slot array. |
| `Ranking.RankedMatches` | plugins/MuonExtendedTableProducer.cc:195-206 | The ranked array has exactly 5 entries. It is a permutation of the slots (count j, j) for j < min(n,5) plus (−1, −1) for the rest. Seen through reverse iterators it is sorted ascending, as `std::sort` leaves it. |
| `Ranking.ReverseSortedIsNonIncreasing` | plugins/MuonExtendedTableProducer.cc:206 | A sequence is sorted ascending in reverse view exactly when it is non-increasing front to back under `std::pair`'s `<`. |
| `Ranking.SortedPermutationUnique` | plugins/MuonExtendedTableProducer.cc:206 | Two non-increasing arrangements of the same multiset of pairs are equal. The sort result therefore does not depend on how `std::sort` handles equal elements. |
| `Ranking.RankingIsDetermined` | plugins/MuonExtendedTableProducer.cc:206 | Every array that is a permutation of the slots and ascending in reverse view equals `RankedMatches`. |
| `Ranking.RankedEntriesAreEvaluatedTracks` | plugins/MuonExtendedTableProducer.cc:197-206 | Every ranked entry is either (−1, −1) or (`getMatches` of DSA track j, j) for an evaluated j. Every evaluated DSA track appears in the ranking. |
| `Ranking.TiesGoToHigherIndex` | plugins/MuonExtendedTableProducer.cc:206-216 | Counts never increase along the ranking. Among equal counts the higher original index comes first, so (−1, 4) precedes (−1, −1). |
| `Ranking.NoDsaTracksAllUnfilled` | plugins/MuonExtendedTableProducer.cc:195-206 | With no DSA tracks the raw counts are empty and all five ranked entries are (−1, −1). |
| `Ranking.OnlyFirstFiveEvaluated` | plugins/MuonExtendedTableProducer.cc:197-198 | DSA tracks after the fifth change neither the raw counts nor the ranking. |
| `Ranking.IneligibleMuonRanking` | plugins/MuonExtendedTableProducer.cc:195-206 | A muon that fails the arbitration selection, against two DSA tracks, has raw counts [−1, −1]. Its ranking is (−1,1), (−1,0), (−1,−1), (−1,−1), (−1,−1). |
| `Table.FillColumns` | plugins/MuonExtendedTableProducer.cc:116-216 | The per-muon loop as written, with `continue` on a null best track. Afterwards `idx` holds 0..nMuons−1. The pre-sized groups have one entry per muon: −1 unless the muon has a best track and the group's guard holds, in which case they hold that muon's values. The track and matching columns have one row per muon with a best track, in collection order, holding that muon's values, raw counts and ranking. |
| `Table.SkipLeavesColumns` | plugins/MuonExtendedTableProducer.cc:119-124 | For a muon with a null best track, the set of muons reaching the `push_back` statements and both pre-sized groups stay unchanged. |
| `Table.PushTrackRow` | plugins/MuonExtendedTableProducer.cc:128-177 | The track `push_back`s for muon i (the impact-parameter ones aside) extend the track columns from one row per tracked muon among the first i to one row per tracked muon among the first i+1. |
| `Table.OverwriteOuter` | plugins/MuonExtendedTableProducer.cc:179-182 | The guarded overwrite of `outerEta[i]` and `outerPhi[i]` turns the outer group for the first i muons into the group for the first i+1. |
| `Table.OverwriteInner` | plugins/MuonExtendedTableProducer.cc:184-193 | The guarded overwrite at index i of the six inner-track columns, `trkNumPixelHits` and `trkNumTrkLayers` turns that group for the first i muons into the group for the first i+1. |
| `Table.PushMatchRow` | plugins/MuonExtendedTableProducer.cc:195-216 | The ranking block for muon i appends that muon's raw counts and its five ranked pairs, so the matching columns hold one row per tracked muon among the first i+1. |
| `Table.Produce` | plugins/MuonExtendedTableProducer.cc:107-124 | The assembled table has the layout the loop leaves. It is aligned (every column has nMuons entries) exactly when every muon has a best track, and then it equals `ProduceAligned`. |
| `Table.TrackedMembers` | plugins/MuonExtendedTableProducer.cc:124 | A muon is among those reaching the `push_back` statements exactly when it is in the collection and has a best track. |
| `Table.ShortColumnsIffUntrackedMuon` | plugins/MuonExtendedTableProducer.cc:124 | The `push_back` columns are shorter than the muon collection exactly when some muon has a null best track. |
| `Table.NullBestTrackShortensColumns` | plugins/MuonExtendedTableProducer.cc:119-129 | For a single muon with a null best track, the table as written has one `idx` entry and no `trkPt` or `nMatchesPerDSA` row, so its columns are not aligned. |
| `Table.AsWrittenIsCorrectedWhenAllTracked` | plugins/MuonExtendedTableProducer.cc:116-216 | Any table with the layout the loop leaves equals the corrected table when every muon has a best track. |
| `Table.ProduceAligned` | plugins/MuonExtendedTableProducer.cc:107-124 | Corrected table: every column has exactly one entry per muon. Row i holds muon i's best-track values, or −1 in every track column when it has none. It holds the guarded outer and inner values, and muon i's raw counts and ranking. |

## Findings

| source | as written | input that shows it | evidently intended | confidence | as-written member | corrected member |
|---|---|---|---|---|---|---|
| plugins/MuonExtendedTableProducer.cc:124 | A muon with a null best track is skipped with `continue` after its `idx` entry. Every `push_back` vector (`trkPt`, the impact-parameter columns, `nMatchesPerDSA`, `dsaMatch*`, …) then has fewer entries than the `nMuons` rows the table is created with at line 223. | One muon whose `tunePMuonBestTrack()` is null: `idx` has 1 entry and `trkPt` has 0. | One entry per muon in every column, as the pre-sized columns already have (lines 107-109). A muon without a best track gets −1 in the columns read from the best track. The matching columns do not depend on the best track, so they are filled for it as for any other muon. | low: not executed; a null best track may be rare or absent in practice, and what `addColumn` does with a short vector is outside this model | `Table.Produce` | `Table.ProduceAligned` |

The as-written side is `Table.Produce`. Its contract states that the table is
aligned exactly when every muon has a best track.
`Table.NullBestTrackShortensColumns` works through the input of the table
row. `Table.ShortColumnsIffUntrackedMuon` shows that any null best track
shortens the `push_back` columns. The corrected side is `Table.ProduceAligned`,
whose columns are proved to have one entry per muon for every input; it
coincides with the as-written table whenever every muon has a best track.

## Left out

- Impact-parameter columns (lines 126-169). These are `dxy`/`dz` and their errors, the trajectory states and the `IPTools` signed and absolute 2D/3D values. They are opaque calls into the transient-track builder and `IPTools`, with floating-point propagation. They are pushed at the same place as `trkPt`, so they have its row structure. Observation only: lines 147-150 pass `beamSpotVertex`, so `ip3DPV*` repeat `ip3DBS*`.
- `muon::isGoodMuon(…, TrackerMuonArbitrated)` and `isTrackerMuon()` are two booleans on the muon record. `hitPattern()` counts, `normalizedChi2`, `pt`, `ptError`, `outerEta`/`outerPhi` and the inner-track values are opaque fields.
- What `FlatTable::addColumn` (lines 224-290) does with a vector whose size differs from the table's row count. The model only shows that the `push_back` vectors are shorter than `nMuons`, not whether the framework then rejects the event or stores misaligned columns.
- Event and handle retrieval, the `EventSetup` builder, `primaryVertices->at(0)` (which fails on an empty collection), `FlatTable` construction and `addColumn`, `fillDescriptions` and plugin registration (lines 29-51, 76-95, 223-295, 358-360). These are framework I/O.
- DetId bit decoding: a detector id is a record of `det`, `subdet` and `rawId`. The codes `DetId::Muon` = 2, `MuonSubdetId::DT` = 1 and `MuonSubdetId::CSC` = 2 are the framework's values. The headers that define them are not part of this model.
- `innerTrack().isNonnull() && isAvailable()` is modelled as one `Option`. `None` stands for either failure.
- The commented-out tracker isolation (lines 58-60, 114, 218-219, 292-293, 330-356) is inactive code.
- Floating point. Positions and the tolerance are `float` in the source and `real` here, so the model has no rounding in `fabs(a - b) < tol`. Counts, indices and hit counts go into `float` columns and `pair<float, float>`. They are modelled as `int`, which is exact for magnitudes below 2^24.
- The ten columns `dsaMatch1` … `dsaMatch5idx` are modelled as one row of five (count, index) pairs per muon. Column k is the k-th pair's count or index.
