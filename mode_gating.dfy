/**
 * The boolean decisions of xCompressCU that choose which RD checks run:
 * the asymmetric-partition (AMP) shapes, the inter and intra gates, the
 * PCM gate, the split decision and its recursion guard, and the slice
 * byte-budget sentinel that forces a split.
 */
module ModeGating {
  import opened CuTypes
  import BestMode

  // ---------------------------------------------------------------------
  // AMP shape derivation
  // ---------------------------------------------------------------------

  /** The four out-flags of deriveTestModeAMP: full AMP search and merge-only AMP, per direction. */
  datatype AmpTests = AmpTests(hor: bool, ver: bool, mergeHor: bool, mergeVer: bool)

  const NoAmpTests := AmpTests(false, false, false, false)

  /**
   * deriveTestModeAMP (AMP_MRG build): the flags the caller passes in are
   * only ever set, except that a 64-wide CU never runs the full AMP search.
   * `best` is the best CU after the symmetric partitions were tried and
   * `parent` the partition of the parent CU (NumberOfPartSizes when the
   * parent's best was not inter).
   */
  function DeriveTestModeAMP(best: Candidate, width: nat, parent: PartSize, t: AmpTests): AmpTests
  {
    var t1 :=
      if best.part == Size2NxN then t.(hor := true)
      else if best.part == SizeNx2N then t.(ver := true)
      else if best.part == Size2Nx2N && !best.merge && !best.skipped then t.(hor := true, ver := true)
      else t;
    var t2 := if IsAmpPart(parent) then t1.(mergeHor := true, mergeVer := true) else t1;
    var t3 :=
      if parent == NumberOfPartSizes then
        (if best.part == Size2NxN then t2.(mergeHor := true)
         else if best.part == SizeNx2N then t2.(mergeVer := true)
         else t2)
      else t2;
    var t4 := if best.part == Size2Nx2N && !best.skipped then t3.(mergeHor := true, mergeVer := true) else t3;
    if width == 64 then t4.(hor := false, ver := false) else t4
  }

  /** A partition check the cascade may run: the shape, and whether only merge is tried for it. */
  datatype PartTest = PartTest(part: PartSize, mergeOnly: bool)

  /**
   * The AMP checks the flags lead to: per direction, the full search when
   * its flag is set, otherwise the merge-only search when that flag is set.
   */
  function AmpShapesTried(t: AmpTests): set<PartTest>
  {
    (if t.hor then {PartTest(Size2NxnU, false), PartTest(Size2NxnD, false)}
     else if t.mergeHor then {PartTest(Size2NxnU, true), PartTest(Size2NxnD, true)}
     else {}) +
    (if t.ver then {PartTest(SizenLx2N, false), PartTest(SizenRx2N, false)}
     else if t.mergeVer then {PartTest(SizenLx2N, true), PartTest(SizenRx2N, true)}
     else {})
  }

  /** Flags are only ever raised, except the full-search flags of a 64-wide CU. */
  lemma AmpFlagsOnlyRaised(best: Candidate, width: nat, parent: PartSize, t: AmpTests)
    ensures var r := DeriveTestModeAMP(best, width, parent, t);
      (t.mergeHor ==> r.mergeHor) && (t.mergeVer ==> r.mergeVer) &&
      (width != 64 ==> (t.hor ==> r.hor) && (t.ver ==> r.ver)) &&
      (width == 64 ==> !r.hor && !r.ver)
  {
  }

  /**
   * Starting from cleared flags, the full horizontal AMP search runs exactly
   * when the best shape is 2NxN, or a non-merge non-skip 2Nx2N, and the CU
   * is not 64 wide; the vertical one likewise with Nx2N.
   */
  lemma AmpFullSearchCause(best: Candidate, width: nat, parent: PartSize)
    ensures var r := DeriveTestModeAMP(best, width, parent, NoAmpTests);
      (r.hor <==>
        (width != 64 && (best.part == Size2NxN || (best.part == Size2Nx2N && !best.merge && !best.skipped)))) &&
      (r.ver <==>
        (width != 64 && (best.part == SizeNx2N || (best.part == Size2Nx2N && !best.merge && !best.skipped))))
  {
  }

  /**
   * Starting from cleared flags, merge-only AMP is enabled in a direction
   * exactly when the parent chose an AMP shape, or the parent was not inter
   * and the best shape splits in that direction, or the best is a non-skip 2Nx2N.
   */
  lemma AmpMergeSearchCause(best: Candidate, width: nat, parent: PartSize)
    ensures var r := DeriveTestModeAMP(best, width, parent, NoAmpTests);
      (r.mergeHor <==> IsAmpPart(parent) || (parent == NumberOfPartSizes && best.part == Size2NxN) ||
                       (best.part == Size2Nx2N && !best.skipped)) &&
      (r.mergeVer <==> IsAmpPart(parent) || (parent == NumberOfPartSizes && best.part == SizeNx2N) ||
                       (best.part == Size2Nx2N && !best.skipped))
  {
  }

  /**
   * A skipped 2Nx2N best under a parent that chose no AMP shape tries no
   * AMP shape at all; a 64-wide CU only ever tries merge-only AMP.
   */
  lemma {:induction false} AmpShapesForSkipAndWide(best: Candidate, width: nat, parent: PartSize)
    ensures best.part == Size2Nx2N && best.skipped && !IsAmpPart(parent) ==>
      AmpShapesTried(DeriveTestModeAMP(best, width, parent, NoAmpTests)) == {}
    ensures width == 64 ==>
      forall p :: p in AmpShapesTried(DeriveTestModeAMP(best, width, parent, NoAmpTests)) ==> p.mergeOnly
  {
    var r := DeriveTestModeAMP(best, width, parent, NoAmpTests);
    if best.part == Size2Nx2N && best.skipped && !IsAmpPart(parent) {
      assert !r.hor && !r.ver && !r.mergeHor && !r.mergeVer;
    }
    if width == 64 {
      assert !r.hor && !r.ver;
    }
  }

  // ---------------------------------------------------------------------
  // Inter and intra gates
  // ---------------------------------------------------------------------

  /** The slice context the gates read. */
  datatype SliceContext = SliceContext(
    sliceType: SliceType,
    useIntraBlockCopy: bool,        // PPS screen-content IntraBC enabled
    onlyCurrentPictureRef: bool,    // the only reference picture is the current one
    numValidComponents: nat,        // 1 for 4:0:0, otherwise 3
    tileConstraint: bool            // temporal motion-constrained tile sets are enforced
  )

  /** Inter modes (skip, merge, partitions) are tried in inter slices, or with IntraBC when other pictures are referenced. */
  predicate InterGate(s: SliceContext)
  {
    (!s.useIntraBlockCopy && s.sliceType != ISlice) || (s.useIntraBlockCopy && !s.onlyCurrentPictureRef)
  }

  /** Intra is tried in intra-only contexts, or when the best CU so far is not a skip CU. */
  predicate IntraGate(s: SliceContext, best: Candidate)
  {
    (!s.useIntraBlockCopy && s.sliceType == ISlice) ||
    (s.useIntraBlockCopy && s.onlyCurrentPictureRef) ||
    !best.skipped
  }

  /**
   * Intra 2Nx2N runs always under the tile constraint, otherwise when
   * nothing is chosen yet, or (intra in inter slices allowed) the best has a
   * coded component.
   */
  predicate Intra2Nx2NGate(s: SliceContext, best: Candidate, disableIntraInInter: bool)
  {
    s.tileConstraint || best.mode == ModeNone ||
    (!disableIntraInInter &&
      (best.cbfY || (best.cbfCb && s.numValidComponents > 1) || (best.cbfCr && s.numValidComponents > 2)))
  }

  /** Intra NxN runs only at the smallest CU size, when the CU is larger than the smallest TU. */
  predicate IntraNxNGate(depth: nat, log2DiffMaxMin: nat, width: nat, log2MinTuSize: nat)
  {
    depth == log2DiffMaxMin && width > Pow2(log2MinTuSize)
  }

  /** Inter NxN runs only for a smallest CU that is not 8x8, while partition checks are not blocked. */
  predicate InterNxNGate(depth: nat, log2DiffMaxMin: nat, width: nat, height: nat, doNotBlockPu: bool)
  {
    !(width == 8 && height == 8) && depth == log2DiffMaxMin && doNotBlockPu
  }

  /**
   * Every context runs at least one of the two families on a CU with
   * nothing chosen yet, and an intra-only context never runs inter: so a
   * CU inside the picture always has intra 2Nx2N costed when no inter
   * check produced a mode.
   */
  lemma GatesCoverUnsetCu(s: SliceContext, disableIntraInInter: bool)
    ensures IntraGate(s, Unset()) && Intra2Nx2NGate(s, Unset(), disableIntraInInter)
    ensures (s.sliceType == ISlice && !s.useIntraBlockCopy) ==> !InterGate(s)
    ensures (s.useIntraBlockCopy && s.onlyCurrentPictureRef) ==> !InterGate(s)
    ensures InterGate(s) || IntraGate(s, Unset())
  {
  }

  // ---------------------------------------------------------------------
  // PCM
  // ---------------------------------------------------------------------

  /** PCM is tried for CU widths within the SPS PCM size range. */
  predicate PcmSizeGate(usePCM: bool, width: nat, pcmLog2Min: nat, pcmLog2Max: nat)
  {
    usePCM && width <= Pow2(pcmLog2Max) && width >= Pow2(pcmLog2Min)
  }

  /**
   * ... and only when the best CU spends more bits than raw samples would,
   * or costs more than the raw bits at zero distortion (which holds for
   * MAX_DOUBLE).
   */
  predicate PcmCostGate(bestBits: nat, rawBits: nat, bestCost: Cost, rawCost: Cost)
  {
    bestBits > rawBits || Less(rawCost, bestCost)
  }

  /** In fast delta-QP mode xCheckIntraPCM gives up above Clip3(1 << min, 1 << max, 32). */
  function FastDeltaQpPcmMaxSize(pcmLog2Min: nat, pcmLog2Max: nat): nat
    requires pcmLog2Min <= pcmLog2Max
  {
    PowMonotone(pcmLog2Min, pcmLog2Max);
    Clip3(Pow2(pcmLog2Min), Pow2(pcmLog2Max), 32)
  }

  predicate PcmSearchRuns(fastDeltaQp: bool, width: nat, pcmLog2Min: nat, pcmLog2Max: nat)
    requires pcmLog2Min <= pcmLog2Max
  {
    !fastDeltaQp || width <= FastDeltaQpPcmMaxSize(pcmLog2Min, pcmLog2Max)
  }

  lemma {:induction false} PowMonotone(a: nat, b: nat)
    requires a <= b
    ensures Pow2(a) <= Pow2(b)
    decreases b
  {
    if a < b {
      PowMonotone(a, b - 1);
    }
  }

  /**
   * PCM is always tried on a CU that spends no fewer bits than raw and has
   * no mode yet; in fast delta-QP mode a PCM search that runs is on a CU of
   * at most 32 samples width, or of the minimum PCM size.
   */
  lemma PcmGateFacts(usePCM: bool, width: nat, pcmLog2Min: nat, pcmLog2Max: nat,
                     bestBits: nat, rawBits: nat, rawCost: real)
    requires pcmLog2Min <= pcmLog2Max
    ensures PcmCostGate(bestBits, rawBits, MaxDouble, Finite(rawCost))
    ensures PcmSizeGate(usePCM, width, pcmLog2Min, pcmLog2Max) &&
            PcmSearchRuns(true, width, pcmLog2Min, pcmLog2Max) ==>
            width <= 32 || width == Pow2(pcmLog2Min)
  {
    PowMonotone(pcmLog2Min, pcmLog2Max);
  }

  // ---------------------------------------------------------------------
  // Split decision
  // ---------------------------------------------------------------------

  /**
   * The neural split veto (a floating-point network, not modelled): it is
   * consulted only in builds with it, for a P slice of a geometry or
   * attribute stream, on a CU that may still split, and can only turn
   * the split off.
   */
  datatype NeuralSplit = NeuralSplit(
    enabled: bool,          // the build includes the network
    streamKind: int,        // OorGorA: 1 attribute, 0 geometry, -1 occupancy
    pSlice: bool,
    vetoes: bool            // the network output is below its threshold
  )

  predicate NeuralVetoApplies(n: NeuralSplit, depth: nat, log2DiffMaxMin: nat)
  {
    n.enabled && n.streamKind >= 0 && depth < log2DiffMaxMin && n.pSlice && n.vetoes
  }

  /** The encoder's own split decision before the network: boundary CUs always, else unless early-CU found a skip. */
  predicate EncoderSubBranch(boundary: bool, useEarlyCU: bool, best: Candidate)
  {
    var b := boundary || !(useEarlyCU && best.cost != MaxDouble && best.skipped);
    if best.intraBC && !best.rootCbf then false else b
  }

  /**
   * bSubBranch as written: the network may switch the split off for any CU,
   * including one that crosses the picture boundary and has no mode.
   */
  predicate SubBranchAsWritten(boundary: bool, useEarlyCU: bool, best: Candidate,
                               n: NeuralSplit, depth: nat, log2DiffMaxMin: nat)
  {
    EncoderSubBranch(boundary, useEarlyCU, best) && !NeuralVetoApplies(n, depth, log2DiffMaxMin)
  }

  /** bSubBranch with the network consulted only for CUs inside the picture. */
  predicate SubBranch(boundary: bool, useEarlyCU: bool, best: Candidate,
                      n: NeuralSplit, depth: nat, log2DiffMaxMin: nat)
  {
    EncoderSubBranch(boundary, useEarlyCU, best) && (boundary || !NeuralVetoApplies(n, depth, log2DiffMaxMin))
  }

  /**
   * Without the network, a CU is not split exactly when early-CU found a
   * chosen skip CU on an inside CU, or the best is an IntraBC CU without residual.
   */
  lemma SubBranchCases(boundary: bool, useEarlyCU: bool, best: Candidate,
                       n: NeuralSplit, depth: nat, log2DiffMaxMin: nat)
    requires !n.enabled
    ensures !SubBranch(boundary, useEarlyCU, best, n, depth, log2DiffMaxMin) <==>
      (best.intraBC && !best.rootCbf) ||
      (!boundary && useEarlyCU && best.cost != MaxDouble && best.skipped)
    ensures SubBranch(boundary, useEarlyCU, best, n, depth, log2DiffMaxMin) ==
      SubBranchAsWritten(boundary, useEarlyCU, best, n, depth, log2DiffMaxMin)
  {
  }

  /**
   * The boundary CU the network can leave unsplit: a P-slice geometry CU
   * crossing the picture edge, with nothing chosen (no RD check runs on a
   * boundary CU), for which the network output is below its threshold.
   */
  lemma NeuralVetoBlocksBoundarySplit()
    ensures var n := NeuralSplit(true, 0, true, true);
      !SubBranchAsWritten(true, false, Unset(), n, 0, 3) &&
      SubBranch(true, false, Unset(), n, 0, 3)
  {
  }

  /** A boundary CU with nothing chosen always splits in the corrected decision. */
  lemma BoundaryCuAlwaysSplits(useEarlyCU: bool, n: NeuralSplit, depth: nat, log2DiffMaxMin: nat)
    ensures SubBranch(true, useEarlyCU, Unset(), n, depth, log2DiffMaxMin)
  {
  }

  /** The largest CU width still searched unsplit in fast delta-QP mode: Clip3(maxCU >> log2Diff, maxCU, 32). */
  function FastDeltaQpCuMaxSize(maxCuHeight: nat, log2DiffMaxMin: nat): (r: nat)
    requires maxCuHeight / Pow2(log2DiffMaxMin) <= maxCuHeight
    ensures maxCuHeight / Pow2(log2DiffMaxMin) <= r <= maxCuHeight
  {
    Clip3(maxCuHeight / Pow2(log2DiffMaxMin), maxCuHeight, 32)
  }

  /**
   * The recursion guard: no hash-ME termination, a split decision, a depth
   * that can still split, and in fast delta-QP mode a CU larger than the
   * fast size (or crossing the boundary).
   */
  predicate RecurseGate(terminateAll: bool, subBranch: bool, depth: nat, log2DiffMaxMin: nat,
                        fastDeltaQp: bool, width: nat, fastMaxSize: nat, boundary: bool)
  {
    !terminateAll && subBranch && depth < log2DiffMaxMin &&
    (!fastDeltaQp || width > fastMaxSize || boundary)
  }

  /** A child CU is searched only when its top-left sample lies inside the picture. */
  predicate ChildSearched(childX: nat, childY: nat, picWidth: nat, picHeight: nat)
  {
    childX < picWidth && childY < picHeight
  }

  /** The parent hint passed to the children: the best shape when the best is an inter CU, else NumberOfPartSizes. */
  function ChildParentHint(best: Candidate): (p: PartSize)
    ensures p != NumberOfPartSizes ==> best.mode == ModeInter && best.cost != MaxDouble && p == best.part
    ensures best.mode != ModeInter ==> p == NumberOfPartSizes
  {
    if best.cost != MaxDouble && best.mode == ModeInter then best.part else NumberOfPartSizes
  }

  // ---------------------------------------------------------------------
  // Slice byte budget sentinel
  // ---------------------------------------------------------------------

  /** The slice and slice-segment state the sentinel reads. */
  datatype SliceBudget = SliceBudget(
    sliceFixedBytes: bool,       // slice mode FIXED_NUMBER_OF_BYTES
    sliceBits: nat,
    sliceArgumentBytes: nat,
    segmentFixedBytes: bool,     // slice-segment mode FIXED_NUMBER_OF_BYTES
    segmentBits: nat,
    segmentArgumentBytes: nat,
    ctuRsAddr: nat,
    sliceStartRsAddr: nat,       // raster address of the slice's first CTU
    segmentStartRsAddr: nat      // raster address of the slice segment's first CTU
  )

  /** Adding the best CU's bits would overflow the slice's byte budget, and this is not the first CTU. */
  predicate EndOfSlice(b: SliceBudget, bestBits: nat)
  {
    b.sliceFixedBytes && b.sliceBits + bestBits > b.sliceArgumentBytes * 8 &&
    b.ctuRsAddr != b.sliceStartRsAddr && b.ctuRsAddr != b.segmentStartRsAddr
  }

  predicate EndOfSliceSegment(b: SliceBudget, bestBits: nat)
  {
    b.segmentFixedBytes && b.segmentBits + bestBits > b.segmentArgumentBytes * 8 &&
    b.ctuRsAddr != b.segmentStartRsAddr
  }

  /** A chosen best that overflows the budget is made infeasible (cost MAX_DOUBLE); nothing else of it changes. */
  function ApplySentinel(best: Candidate, b: SliceBudget): (r: Candidate)
    ensures r == best || (best.cost != MaxDouble && r == best.(cost := MaxDouble))
  {
    if best.cost != MaxDouble && (EndOfSlice(b, best.bits) || EndOfSliceSegment(b, best.bits))
    then best.(cost := MaxDouble) else best
  }

  /**
   * When the sentinel fires, any finite split candidate wins the following
   * comparison; the first CTU of a slice segment never fires it, and a best
   * within both budgets is left alone.
   */
  lemma SentinelForcesSplit(best: Candidate, b: SliceBudget, split: Candidate)
    ensures (best.cost != MaxDouble && (EndOfSlice(b, best.bits) || EndOfSliceSegment(b, best.bits)) &&
             split.cost != MaxDouble) ==>
      BestMode.Keep(ApplySentinel(best, b), split) == split
    ensures b.ctuRsAddr == b.segmentStartRsAddr ==> ApplySentinel(best, b) == best
    ensures ((!b.sliceFixedBytes || b.sliceBits + best.bits <= b.sliceArgumentBytes * 8) &&
             (!b.segmentFixedBytes || b.segmentBits + best.bits <= b.segmentArgumentBytes * 8)) ==>
      ApplySentinel(best, b) == best
  {
  }
}
