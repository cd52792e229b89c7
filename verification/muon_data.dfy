/**
  Plain records for the inputs of the muon table producer: the hits of a
  displaced standalone (DSA) track, the chamber matches stored on a muon, and
  the few track accessors the producer copies into its columns.

  Detector identifiers are kept as records (`det`, `subdet`, `rawId`) instead
  of the packed 32-bit word; the detector and sub-detector codes are the
  framework's `DetId::Muon` and `MuonSubdetId::DT` / `MuonSubdetId::CSC`.
 */
module MuonData {

  datatype Option<+T> = None | Some(value: T)

  /** `DetId::Muon` */
  const MuonDet: int := 2
  /** `MuonSubdetId::DT` */
  const DTSubdet: int := 1
  /** `MuonSubdetId::CSC` */
  const CSCSubdet: int := 2

  datatype DetId = DetId(det: int, subdet: int, rawId: nat)

  /** A reconstructed hit on a DSA track: validity flag, detector id, local position. */
  datatype Hit = Hit(valid: bool, id: DetId, x: real, y: real)

  datatype DsaTrack = DsaTrack(hits: seq<Hit>)

  /** Local position of a segment matched to the muon in one chamber. */
  datatype Segment = Segment(x: real, y: real)

  /** One entry of `muon.matches()`: the chamber's raw id and its segment matches. */
  datatype ChamberMatch = ChamberMatch(rawId: nat, segments: seq<Segment>)

  /**
    The muon's best (tuneP) track, as far as the producer reads it. The three
    flags are the outer-position guard: `extra().isNonnull()`,
    `extra().isAvailable()` and `outerOk()`.
   */
  datatype BestTrack = BestTrack(
    pt: real,
    ptError: real,
    muonStationsWithValidHits: int,
    validMuonHits: int,
    validMuonDTHits: int,
    validMuonCSCHits: int,
    normalizedChi2: real,
    extraNonnull: bool,
    extraAvailable: bool,
    outerOk: bool,
    outerEta: real,
    outerPhi: real)

  /** The muon's inner (tracker) track when the reference is non-null and available. */
  datatype InnerTrack = InnerTrack(
    vx: real, vy: real, vz: real,
    pt: real, eta: real, phi: real,
    validPixelHits: int,
    trackerLayersWithMeasurement: int)

  /**
    A muon: the two flags of the tracker-muon-arbitrated selection, the chamber
    matches, the best track (`None` for a null reference) and the inner track
    (`None` when it is null or not available).
   */
  datatype Muon = Muon(
    isTrackerMuon: bool,
    goodTrackerMuonArbitrated: bool,
    chambers: seq<ChamberMatch>,
    bestTrack: Option<BestTrack>,
    innerTrack: Option<InnerTrack>)
}
