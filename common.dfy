/**
 * Shared vocabulary of the CU (coding unit) decision engine: the HEVC
 * partition shapes and prediction modes, the rate-distortion cost with its
 * MAX_DOUBLE "nothing chosen yet" sentinel, the Clip3 helper, and a value
 * snapshot of a candidate coding unit.
 */
module CuTypes {

  /** Highest luma QP of HEVC (MAX_QP). */
  const MAX_QP: int := 51

  /** Maximum number of merge candidates (MRG_MAX_NUM_CANDS). */
  const MRG_MAX_NUM_CANDS: nat := 5

  /** Clip3(lo, hi, v): the encoder's clamp, min(max(lo, v), hi). */
  function Clip3(lo: int, hi: int, v: int): (r: int)
    requires lo <= hi
    ensures lo <= r <= hi
    ensures lo <= v <= hi ==> r == v
    ensures v < lo ==> r == lo
    ensures v > hi ==> r == hi
  {
    if v < lo then lo else if v > hi then hi else v
  }

  function Abs(x: int): nat
  {
    if x < 0 then -x else x
  }

  /**
   * A plane of samples seen from a block origin: the sample `x` to the right
   * of and `y` rows below it, read at origin + stride * y + x.
   */
  type Plane = (nat, nat) -> int

  /** 1 << n. */
  function Pow2(n: nat): (r: nat)
    ensures r >= 1
  {
    if n == 0 then 1 else 2 * Pow2(n - 1)
  }

  /** The width and height of a CU at `depth`, in minimum-CU units. */
  function CuSize(log2DiffMaxMin: nat, depth: nat): (s: nat)
    requires depth <= log2DiffMaxMin
    ensures s >= 1
  {
    Pow2(log2DiffMaxMin - depth)
  }

  /** x >> n. */
  function ShiftRight(x: nat, n: nat): nat
  {
    if n == 0 then x else ShiftRight(x / 2, n - 1)
  }

  /**
   * calcRdCost(bits, distortion) of the RD-cost helper: distortion plus
   * lambda times bits (the helper itself is not part of this model).
   */
  function RdCost(lambda: real, bits: nat, distortion: nat): (c: Cost)
    requires lambda >= 0.0
    ensures c.Finite? && c.value >= distortion as real
  {
    Finite(distortion as real + lambda * bits as real)
  }

  /**
   * The partition shapes of a CU, in the order of the encoder's PartSize
   * enumeration. NumberOfPartSizes is the enumeration's count value, which
   * the encoder also passes down the recursion to mean "the parent chose no
   * inter partition".
   */
  datatype PartSize =
    | Size2Nx2N | Size2NxN | SizeNx2N | SizeNxN
    | Size2NxnU | Size2NxnD | SizenLx2N | SizenRx2N
    | NumberOfPartSizes

  function PartOrdinal(p: PartSize): (k: nat)
    ensures k <= 8
    ensures k == 8 <==> p == NumberOfPartSizes
  {
    match p
    case Size2Nx2N => 0
    case Size2NxN => 1
    case SizeNx2N => 2
    case SizeNxN => 3
    case Size2NxnU => 4
    case Size2NxnD => 5
    case SizenLx2N => 6
    case SizenRx2N => 7
    case NumberOfPartSizes => 8
  }

  /** The four asymmetric (AMP) shapes occupy ordinals 4..7. */
  predicate IsAmpPart(p: PartSize)
  {
    PartOrdinal(Size2NxnU) <= PartOrdinal(p) <= PartOrdinal(SizenRx2N)
  }

  lemma AmpPartsAreTheFourAsymmetricShapes(p: PartSize)
    ensures IsAmpPart(p) <==> p in {Size2NxnU, Size2NxnD, SizenLx2N, SizenRx2N}
  {
  }

  /** MODE_INTER, MODE_INTRA, and the unset value NUMBER_OF_PREDICTION_MODES. */
  datatype PredMode = ModeInter | ModeIntra | ModeNone

  datatype SliceType = BSlice | PSlice | ISlice

  /**
   * A rate-distortion cost: a finite double, or the MAX_DOUBLE sentinel that
   * a freshly initialised CU carries before any mode has been chosen.
   */
  datatype Cost = Finite(value: real) | MaxDouble

  /** The encoder's `<` between two costs; MAX_DOUBLE is above every finite cost. */
  predicate Less(a: Cost, b: Cost)
  {
    match (a, b)
    case (Finite(x), Finite(y)) => x < y
    case (Finite(_), MaxDouble) => true
    case (MaxDouble, _) => false
  }

  predicate LessEq(a: Cost, b: Cost)
  {
    !Less(b, a)
  }

  /** `Less` is a strict total order on costs. */
  lemma LessIsStrictTotalOrder(a: Cost, b: Cost, c: Cost)
    ensures !Less(a, a)
    ensures Less(a, b) && Less(b, c) ==> Less(a, c)
    ensures Less(a, b) || a == b || Less(b, a)
    ensures Less(a, b) ==> !Less(b, a)
  {
  }

  /**
   * What the decision engine knows about one candidate coding unit once an
   * RD check has filled it in: partition, prediction mode, cost, coded
   * bits, the root coded-block flag, and the flags that later gates read.
   */
  datatype Candidate = Candidate(
    part: PartSize,
    mode: PredMode,
    cost: Cost,
    bits: nat,         // getTotalBits()
    distortion: nat,   // getTotalDistortion()
    rootCbf: bool,     // getQtRootCbf(0) != 0
    cbfY: bool,        // getCbf(0, COMPONENT_Y) != 0
    cbfCb: bool,
    cbfCr: bool,
    skipped: bool,     // isSkipped(0)
    merge: bool,       // getMergeFlag(0)
    intraBC: bool,     // isIntraBC(0)
    pcm: bool,         // getIPCMFlag(0)
    lossless: bool,    // isLosslessCoded(0)
    mvdL0: nat,        // |hor| + |ver| of the list-0 MVD of partition 0
    mvdL1: nat         // |hor| + |ver| of the list-1 MVD of partition 0
  )

  /** The state of a CU right after initEstData: nothing chosen, cost MAX_DOUBLE. */
  function Unset(): (c: Candidate)
    ensures c.cost == MaxDouble && c.mode == ModeNone && c.part == NumberOfPartSizes
  {
    Candidate(NumberOfPartSizes, ModeNone, MaxDouble, 0, 0, false, false, false, false,
              false, false, false, false, false, 0, 0)
  }
}
