/**
 * The syntax traversal of a CTU (xEncodeCU and encodeCtu): the chosen
 * coding tree is walked in z-order, a split flag is coded for every CU that
 * lies wholly inside the picture, CUs that cross the right or bottom edge
 * are always split, children whose top-left corner lies outside the
 * picture are skipped, and every leaf CU codes its syntax elements in the
 * fixed order of the standard with early exits for skipped, palette and
 * PCM CUs.
 *
 * Positions and picture dimensions are counted in minimum-CU units: HEVC
 * requires the picture width and height to be multiples of the minimum
 * coding block size, so a CU at depth `d` of a CTU is
 * 2^(log2DiffMaxMin - d) units wide. Partition indices (absPartIdx) count
 * the 4^maxTotalDepth minimum partitions of the CTU in z-order.
 */
module EncodeCu {
  import opened CuTypes

  /** The syntax elements handed to the entropy coder, and the flag raises of the CU encoder. */
  datatype Kind =
    | SplitFlag | DqpFlagRaised | ChromaQpAdjFlagRaised
    | TransquantBypassFlag | SkipFlag | MergeIndex
    | PredModeFlag | PaletteModeInfo | PartSizeSyntax
    | IpcmInfo | PredInfo | Coefficients | FinishCu

  /** One element, tagged with the partition index and depth of its CU. */
  datatype Syntax = Syntax(kind: Kind, part: nat, depth: nat)

  /** The elements of one CU, all tagged with that CU. */
  function Tagged(kinds: seq<Kind>, idx: nat, depth: nat): (s: seq<Syntax>)
    ensures |s| == |kinds|
    ensures forall i :: 0 <= i < |s| ==> s[i] == Syntax(kinds[i], idx, depth)
  {
    seq(|kinds|, i requires 0 <= i < |kinds| => Syntax(kinds[i], idx, depth))
  }

  /**
   * What the chosen coding tree records at a partition: the CU depth and
   * the decisions the traversal branches on. `codesDqp` and
   * `codesChromaQpAdj` say whether the entropy coder codes (and thereby
   * clears) the pending delta-QP and chroma-QP-adjustment flags while
   * coding the palette information or coefficients of this CU.
   */
  datatype PartInfo = PartInfo(depth: nat, skipped: bool, palette: bool, intra: bool,
                               partSize: PartSize, ipcm: bool,
                               codesDqp: bool, codesChromaQpAdj: bool)

  /** The coding tree of a CTU: the record at each partition index. */
  type CodingTree = nat -> PartInfo

  /** The sequence, picture and slice parameters the traversal reads. */
  datatype Config = Config(
    picWidth: nat, picHeight: nat,
    log2DiffMaxMin: nat, maxTotalDepth: nat,
    useDqp: bool, maxCuDqpDepth: nat,
    useChromaQpAdj: bool, chromaQpOffsetDepth: nat,
    transquantBypassEnabled: bool, intraSlice: bool)

  /** The CU depths never go below the minimum partition of the CTU. */
  predicate ValidConfig(cfg: Config)
  {
    cfg.log2DiffMaxMin <= cfg.maxTotalDepth
  }

  /** The pending delta-QP (dQPFlag) and chroma-QP-adjustment (codeChromaQpAdjFlag) flags. */
  datatype QpFlags = QpFlags(dqp: bool, chromaQpAdj: bool)

  /** The syntax one call appends and the flags it leaves behind. */
  datatype Coded = Coded(events: seq<Syntax>, flags: QpFlags)

  function Pow4(n: nat): (r: nat)
    ensures r >= 1
  {
    if n == 0 then 1 else 4 * Pow4(n - 1)
  }

  /** The partitions of the CTU (getNumPartitionsInCtu). */
  function NumPartitionsInCtu(cfg: Config): nat
  {
    Pow4(cfg.maxTotalDepth)
  }

  /** uiQNumParts: (numPartitionsInCtu >> (depth << 1)) >> 2. */
  function QNumParts(cfg: Config, depth: nat): nat
  {
    ShiftRight(ShiftRight(NumPartitionsInCtu(cfg), 2 * depth), 2)
  }

  /** The CU lies wholly inside the picture (its right and bottom edges too). */
  predicate Inside(cfg: Config, x: nat, y: nat, depth: nat)
    requires depth <= cfg.log2DiffMaxMin
  {
    x + CuSize(cfg.log2DiffMaxMin, depth) <= cfg.picWidth && y + CuSize(cfg.log2DiffMaxMin, depth) <= cfg.picHeight
  }

  /** The top-left sample of the CU lies inside the picture. */
  predicate Starts(cfg: Config, x: nat, y: nat)
  {
    x < cfg.picWidth && y < cfg.picHeight
  }

  /** The CU is split: chosen deeper by the coding tree, or crossing the picture edge. */
  predicate Descends(cfg: Config, cu: CodingTree, idx: nat, depth: nat, x: nat, y: nat)
    requires depth <= cfg.log2DiffMaxMin
  {
    (depth < cu(idx).depth && depth < cfg.log2DiffMaxMin) || !Inside(cfg, x, y, depth)
  }

  function Optional(present: bool, k: Kind): seq<Kind>
  {
    if present then [k] else []
  }

  /** The flags a split CU raises before its children are coded. */
  function SplitRaises(cfg: Config, depth: nat): seq<Kind>
  {
    Optional(depth == cfg.maxCuDqpDepth && cfg.useDqp, DqpFlagRaised) +
    Optional(depth == cfg.chromaQpOffsetDepth && cfg.useChromaQpAdj, ChromaQpAdjFlagRaised)
  }

  function RaiseAtSplit(cfg: Config, flags: QpFlags, depth: nat): QpFlags
  {
    QpFlags(flags.dqp || (depth == cfg.maxCuDqpDepth && cfg.useDqp),
            flags.chromaQpAdj || (depth == cfg.chromaQpOffsetDepth && cfg.useChromaQpAdj))
  }

  /** The flags a leaf CU raises before its syntax is coded. */
  function LeafRaises(cfg: Config, depth: nat): seq<Kind>
  {
    Optional(depth <= cfg.maxCuDqpDepth && cfg.useDqp, DqpFlagRaised) +
    Optional(depth <= cfg.chromaQpOffsetDepth && cfg.useChromaQpAdj, ChromaQpAdjFlagRaised)
  }

  function RaiseAtLeaf(cfg: Config, flags: QpFlags, depth: nat): QpFlags
  {
    QpFlags(flags.dqp || (depth <= cfg.maxCuDqpDepth && cfg.useDqp),
            flags.chromaQpAdj || (depth <= cfg.chromaQpOffsetDepth && cfg.useChromaQpAdj))
  }

  /** The entropy coder clears the flags it codes. */
  function Consume(flags: QpFlags, info: PartInfo): QpFlags
  {
    QpFlags(flags.dqp && !info.codesDqp, flags.chromaQpAdj && !info.codesChromaQpAdj)
  }

  /** A 2Nx2N intra CU signals whether it is coded in PCM. */
  predicate SignalsIpcm(info: PartInfo)
  {
    info.intra && info.partSize == Size2Nx2N
  }

  /** What a leaf CU codes before its prediction mode. */
  function LeafHead(cfg: Config, depth: nat): seq<Kind>
  {
    LeafRaises(cfg, depth) +
    Optional(cfg.transquantBypassEnabled, TransquantBypassFlag) +
    Optional(!cfg.intraSlice, SkipFlag)
  }

  /** The rest of a leaf CU, with its early exits for skipped, palette and PCM CUs. */
  function LeafBody(info: PartInfo): seq<Kind>
  {
    if info.skipped then [MergeIndex, FinishCu]
    else if info.palette then [PredModeFlag, PaletteModeInfo, FinishCu]
    else
      var sized := [PredModeFlag, PaletteModeInfo, PartSizeSyntax] + Optional(SignalsIpcm(info), IpcmInfo);
      if SignalsIpcm(info) && info.ipcm then sized + [FinishCu]
      else sized + [PredInfo, Coefficients, FinishCu]
  }

  /**
   * The leaf writes back the flags the entropy coder left: after palette
   * information or coefficients, not after a skipped or PCM CU.
   */
  predicate WritesBackFlags(info: PartInfo)
  {
    !info.skipped && (info.palette || !(SignalsIpcm(info) && info.ipcm))
  }

  /** The flags a leaf CU leaves behind. */
  function LeafFlags(cfg: Config, info: PartInfo, flags: QpFlags, depth: nat): QpFlags
  {
    var raised := RaiseAtLeaf(cfg, flags, depth);
    if WritesBackFlags(info) then Consume(raised, info) else raised
  }

  /** A leaf CU: the syntax it codes and the flags it leaves behind. */
  function Leaf(cfg: Config, info: PartInfo, flags: QpFlags, idx: nat, depth: nat): Coded
  {
    Coded(Tagged(LeafHead(cfg, depth) + LeafBody(info), idx, depth), LeafFlags(cfg, info, flags, depth))
  }

  /**
   * A CU that is split is never at the deepest CU level: at that level a
   * CU whose top-left corner lies in the picture lies wholly inside it.
   */
  lemma SplitIsAboveMinimum(cfg: Config, cu: CodingTree, idx: nat, depth: nat, x: nat, y: nat)
    requires depth <= cfg.log2DiffMaxMin && Starts(cfg, x, y)
    requires Descends(cfg, cu, idx, depth, x, y)
    ensures depth < cfg.log2DiffMaxMin
  {
  }

  /** The split flag of a CU, coded only when the CU lies wholly inside the picture. */
  function Head(cfg: Config, idx: nat, depth: nat, x: nat, y: nat): seq<Syntax>
    requires depth <= cfg.log2DiffMaxMin
  {
    Tagged(Optional(Inside(cfg, x, y, depth), SplitFlag), idx, depth)
  }

  /** xEncodeCU on the CU at (`x`, `y`), partition `idx`, depth `depth`. */
  function Node(cfg: Config, cu: CodingTree, flags: QpFlags, idx: nat, depth: nat, x: nat, y: nat): Coded
    requires depth <= cfg.log2DiffMaxMin && Starts(cfg, x, y)
    decreases cfg.log2DiffMaxMin - depth, 6
  {
    if Descends(cfg, cu, idx, depth, x, y) then
      SplitIsAboveMinimum(cfg, cu, idx, depth, x, y);
      var split := Split(cfg, cu, flags, idx, depth, x, y);
      Coded(Head(cfg, idx, depth, x, y) + split.events, split.flags)
    else
      var leaf := Leaf(cfg, cu(idx), flags, idx, depth);
      Coded(Head(cfg, idx, depth, x, y) + leaf.events, leaf.flags)
  }

  /** A split CU: the flags it raises, then its children in z-order. */
  function Split(cfg: Config, cu: CodingTree, flags: QpFlags, idx: nat, depth: nat, x: nat, y: nat): Coded
    requires depth < cfg.log2DiffMaxMin
    decreases cfg.log2DiffMaxMin - depth, 5
  {
    var children := Children(cfg, cu, RaiseAtSplit(cfg, flags, depth), idx, depth, x, y, 0);
    Coded(Tagged(SplitRaises(cfg, depth), idx, depth) + children.events, children.flags)
  }

  /** The position of child `k` (in z-order) of the CU at (`x`, `y`). */
  function ChildX(cfg: Config, x: nat, depth: nat, k: nat): nat
    requires depth < cfg.log2DiffMaxMin
  {
    if k % 2 == 1 then x + CuSize(cfg.log2DiffMaxMin, depth + 1) else x
  }

  function ChildY(cfg: Config, y: nat, depth: nat, k: nat): nat
    requires depth < cfg.log2DiffMaxMin
  {
    if k >= 2 then y + CuSize(cfg.log2DiffMaxMin, depth + 1) else y
  }

  /** Child `k`, at partition `idx`: coded when its top-left corner lies in the picture. */
  function ChildAt(cfg: Config, cu: CodingTree, flags: QpFlags, idx: nat, depth: nat, x: nat, y: nat, k: nat): Coded
    requires depth < cfg.log2DiffMaxMin
    decreases cfg.log2DiffMaxMin - depth, 0
  {
    var cx := ChildX(cfg, x, depth, k);
    var cy := ChildY(cfg, y, depth, k);
    if Starts(cfg, cx, cy) then Node(cfg, cu, flags, idx, depth + 1, cx, cy) else Coded([], flags)
  }

  /**
   * The children loop of xEncodeCU from child `k` on, `idx` being the
   * partition index of child `k`: each child whose top-left corner lies in
   * the picture is coded, and the index advances by uiQNumParts.
   */
  function Children(cfg: Config, cu: CodingTree, flags: QpFlags, idx: nat, depth: nat, x: nat, y: nat, k: nat): Coded
    requires depth < cfg.log2DiffMaxMin && k <= 4
    decreases cfg.log2DiffMaxMin - depth, 4 - k
  {
    if k == 4 then Coded([], flags)
    else
      var child := ChildAt(cfg, cu, flags, idx, depth, x, y, k);
      var rest := Children(cfg, cu, child.flags, idx + QNumParts(cfg, depth), depth, x, y, k + 1);
      Coded(child.events + rest.events, rest.flags)
  }

  // Properties of a leaf CU.

  /** Every leaf ends with FinishCu, and FinishCu occurs nowhere else in it. */
  lemma LeafEndsWithFinishCu(cfg: Config, info: PartInfo, depth: nat)
    ensures var kinds := LeafHead(cfg, depth) + LeafBody(info);
      |kinds| > 0 && kinds[|kinds| - 1] == FinishCu &&
      forall i :: 0 <= i < |kinds| - 1 ==> kinds[i] != FinishCu
  {
  }

  /**
   * A skipped CU codes only its merge index after the skip flag: no
   * prediction mode, partition, PCM flag, prediction info or coefficients;
   * and since no coefficients are coded, the delta-QP flag it raised stays
   * raised for the next CU.
   */
  lemma SkippedCuCodesOnlyMergeIndex(cfg: Config, info: PartInfo, flags: QpFlags, depth: nat)
    requires info.skipped
    ensures MergeIndex in LeafBody(info)
    ensures forall k :: k in LeafHead(cfg, depth) + LeafBody(info) ==>
      k !in {PredModeFlag, PaletteModeInfo, PartSizeSyntax, IpcmInfo, PredInfo, Coefficients}
    ensures (depth <= cfg.maxCuDqpDepth && cfg.useDqp) ==> LeafFlags(cfg, info, flags, depth).dqp
  {
  }

  /** The head of a leaf holds the flag raises, the transquant-bypass flag and the skip flag only. */
  lemma LeafHeadElements(cfg: Config, depth: nat)
    ensures var head := LeafHead(cfg, depth);
      (SkipFlag in head <==> !cfg.intraSlice) &&
      (TransquantBypassFlag in head <==> cfg.transquantBypassEnabled) &&
      forall k :: k in head ==> k in {DqpFlagRaised, ChromaQpAdjFlagRaised, TransquantBypassFlag, SkipFlag}
  {
  }

  /** The body of a leaf: which CUs code which elements after the skip flag. */
  lemma LeafBodyElements(info: PartInfo)
    ensures var body := LeafBody(info);
      (MergeIndex in body <==> info.skipped) &&
      (PartSizeSyntax in body <==> !info.skipped && !info.palette) &&
      (IpcmInfo in body <==> !info.skipped && !info.palette && SignalsIpcm(info)) &&
      (Coefficients in body <==> !info.skipped && !info.palette && !(SignalsIpcm(info) && info.ipcm)) &&
      (PredInfo in body <==> Coefficients in body) &&
      forall k :: k in body ==> k !in {DqpFlagRaised, ChromaQpAdjFlagRaised, TransquantBypassFlag, SkipFlag, SplitFlag}
  {
  }

  /** Which leaf CUs code which elements. */
  lemma LeafElements(cfg: Config, info: PartInfo, depth: nat)
    ensures var kinds := LeafHead(cfg, depth) + LeafBody(info);
      (MergeIndex in kinds <==> info.skipped) &&
      (SkipFlag in kinds <==> !cfg.intraSlice) &&
      (TransquantBypassFlag in kinds <==> cfg.transquantBypassEnabled) &&
      (PartSizeSyntax in kinds <==> !info.skipped && !info.palette) &&
      (IpcmInfo in kinds <==> !info.skipped && !info.palette && SignalsIpcm(info)) &&
      (Coefficients in kinds <==> !info.skipped && !info.palette && !(SignalsIpcm(info) && info.ipcm)) &&
      (PredInfo in kinds <==> Coefficients in kinds)
  {
    var head := LeafHead(cfg, depth);
    var body := LeafBody(info);
    LeafHeadElements(cfg, depth);
    LeafBodyElements(info);
    assert forall k :: k in head + body <==> k in head || k in body;
  }

  /**
   * The flags after a leaf: a flag is pending afterwards only if it was
   * pending or raised here, and a raised flag survives when the leaf codes
   * no palette information or coefficients or they did not code it.
   */
  lemma LeafFlagsPending(cfg: Config, info: PartInfo, flags: QpFlags, depth: nat)
    ensures LeafFlags(cfg, info, flags, depth).dqp <==>
      (flags.dqp || (depth <= cfg.maxCuDqpDepth && cfg.useDqp)) && !(WritesBackFlags(info) && info.codesDqp)
    ensures LeafFlags(cfg, info, flags, depth).chromaQpAdj <==>
      (flags.chromaQpAdj || (depth <= cfg.chromaQpOffsetDepth && cfg.useChromaQpAdj)) &&
      !(WritesBackFlags(info) && info.codesChromaQpAdj)
  {
  }

  // Properties of the traversal.

  /** Peeling one depth level off the partition count: 4^n >> 2d is 4^(n - d). */
  lemma {:induction false} ShiftPow4(n: nat, d: nat)
    requires d <= n
    ensures ShiftRight(Pow4(n), 2 * d) == Pow4(n - d)
    decreases d
  {
    if d > 0 {
      calc {
        ShiftRight(Pow4(n), 2 * d);
        ShiftRight(Pow4(n) / 2 / 2, 2 * (d - 1));
        { assert Pow4(n) / 2 / 2 == Pow4(n - 1); }
        ShiftRight(Pow4(n - 1), 2 * (d - 1));
        { ShiftPow4(n - 1, d - 1); }
        Pow4(n - d);
      }
    }
  }

  /**
   * uiQNumParts is a quarter of the partitions of a CU at `depth`: the
   * children loop steps through the four quadrants of the CU in z-order.
   */
  lemma QNumPartsIsQuarter(cfg: Config, depth: nat)
    requires depth < cfg.maxTotalDepth
    ensures QNumParts(cfg, depth) == Pow4(cfg.maxTotalDepth - depth - 1)
    ensures 4 * QNumParts(cfg, depth) == Pow4(cfg.maxTotalDepth - depth)
  {
    ShiftPow4(cfg.maxTotalDepth, depth);
    ShiftPow4(cfg.maxTotalDepth - depth, 1);
  }

  /** Every event belongs to a partition in [lo, hi) at depth `d` or deeper. */
  predicate Within(events: seq<Syntax>, lo: nat, hi: nat, d: nat)
  {
    forall e :: e in events ==> lo <= e.part < hi && e.depth >= d
  }

  /** The only events a split CU has at its own depth are its flag raises. */
  predicate OnlyRaisesAt(events: seq<Syntax>, d: nat)
  {
    forall e :: e in events && e.depth == d ==> e.kind == DqpFlagRaised || e.kind == ChromaQpAdjFlagRaised
  }

  /** A flag is only ever raised by a tool that is in use. */
  predicate RaisedOnlyIfUsed(cfg: Config, before: QpFlags, after: QpFlags)
  {
    (after.dqp ==> before.dqp || cfg.useDqp) && (after.chromaQpAdj ==> before.chromaQpAdj || cfg.useChromaQpAdj)
  }

  lemma {:induction false} NodeFacts(cfg: Config, cu: CodingTree, flags: QpFlags, idx: nat, depth: nat, x: nat, y: nat)
    requires ValidConfig(cfg) && depth <= cfg.log2DiffMaxMin && Starts(cfg, x, y)
    ensures Within(Node(cfg, cu, flags, idx, depth, x, y).events, idx, idx + Pow4(cfg.maxTotalDepth - depth), depth)
    ensures RaisedOnlyIfUsed(cfg, flags, Node(cfg, cu, flags, idx, depth, x, y).flags)
    decreases cfg.log2DiffMaxMin - depth, 3
  {
    if Descends(cfg, cu, idx, depth, x, y) {
      SplitIsAboveMinimum(cfg, cu, idx, depth, x, y);
      SplitFacts(cfg, cu, flags, idx, depth, x, y);
    }
  }

  lemma {:induction false} SplitFacts(cfg: Config, cu: CodingTree, flags: QpFlags, idx: nat, depth: nat, x: nat, y: nat)
    requires ValidConfig(cfg) && depth < cfg.log2DiffMaxMin
    ensures Within(Split(cfg, cu, flags, idx, depth, x, y).events, idx, idx + Pow4(cfg.maxTotalDepth - depth), depth)
    ensures OnlyRaisesAt(Split(cfg, cu, flags, idx, depth, x, y).events, depth)
    ensures RaisedOnlyIfUsed(cfg, flags, Split(cfg, cu, flags, idx, depth, x, y).flags)
    decreases cfg.log2DiffMaxMin - depth, 2
  {
    QNumPartsIsQuarter(cfg, depth);
    ChildrenFacts(cfg, cu, RaiseAtSplit(cfg, flags, depth), idx, depth, x, y, 0);
  }

  lemma {:induction false} ChildrenFacts(cfg: Config, cu: CodingTree, flags: QpFlags, idx: nat, depth: nat, x: nat, y: nat, k: nat)
    requires ValidConfig(cfg) && depth < cfg.log2DiffMaxMin && k <= 4
    ensures Within(Children(cfg, cu, flags, idx, depth, x, y, k).events, idx, idx + (4 - k) * QNumParts(cfg, depth), depth + 1)
    ensures RaisedOnlyIfUsed(cfg, flags, Children(cfg, cu, flags, idx, depth, x, y, k).flags)
    decreases cfg.log2DiffMaxMin - depth, 1, 4 - k
  {
    if k < 4 {
      var q := QNumParts(cfg, depth);
      var child := ChildAt(cfg, cu, flags, idx, depth, x, y, k);
      ChildAtFacts(cfg, cu, flags, idx, depth, x, y, k);
      ChildrenFacts(cfg, cu, child.flags, idx + q, depth, x, y, k + 1);
      assert idx + q + (4 - (k + 1)) * q == idx + (4 - k) * q;
    }
  }

  lemma {:induction false} ChildAtFacts(cfg: Config, cu: CodingTree, flags: QpFlags, idx: nat, depth: nat, x: nat, y: nat, k: nat)
    requires ValidConfig(cfg) && depth < cfg.log2DiffMaxMin
    ensures Within(ChildAt(cfg, cu, flags, idx, depth, x, y, k).events, idx, idx + QNumParts(cfg, depth), depth + 1)
    ensures RaisedOnlyIfUsed(cfg, flags, ChildAt(cfg, cu, flags, idx, depth, x, y, k).flags)
    decreases cfg.log2DiffMaxMin - depth, 0
  {
    var cx := ChildX(cfg, x, depth, k);
    var cy := ChildY(cfg, y, depth, k);
    if Starts(cfg, cx, cy) {
      QNumPartsIsQuarter(cfg, depth);
      NodeFacts(cfg, cu, flags, idx, depth + 1, cx, cy);
    }
  }

  /**
   * Everything coded for a CU belongs to its own partitions
   * [idx, idx + 4^(maxTotalDepth - depth)) at its depth or deeper, and a
   * flag is raised only by a tool in use.
   */
  lemma SyntaxStaysInsideCu(cfg: Config, cu: CodingTree, flags: QpFlags, idx: nat, depth: nat, x: nat, y: nat)
    requires ValidConfig(cfg) && depth <= cfg.log2DiffMaxMin && Starts(cfg, x, y)
    ensures forall e :: e in Node(cfg, cu, flags, idx, depth, x, y).events ==>
      idx <= e.part < idx + Pow4(cfg.maxTotalDepth - depth) && e.depth >= depth
    ensures Node(cfg, cu, flags, idx, depth, x, y).flags.dqp ==> flags.dqp || cfg.useDqp
    ensures Node(cfg, cu, flags, idx, depth, x, y).flags.chromaQpAdj ==> flags.chromaQpAdj || cfg.useChromaQpAdj
  {
    NodeFacts(cfg, cu, flags, idx, depth, x, y);
  }

  /** A split flag is coded for a CU exactly when the CU lies wholly inside the picture. */
  lemma SplitFlagIffInside(cfg: Config, cu: CodingTree, flags: QpFlags, idx: nat, depth: nat, x: nat, y: nat)
    requires ValidConfig(cfg) && depth <= cfg.log2DiffMaxMin && Starts(cfg, x, y)
    ensures Syntax(SplitFlag, idx, depth) in Node(cfg, cu, flags, idx, depth, x, y).events <==> Inside(cfg, x, y, depth)
  {
    var head := Head(cfg, idx, depth, x, y);
    if Inside(cfg, x, y, depth) {
      assert head[0] == Syntax(SplitFlag, idx, depth);
    }
    if Descends(cfg, cu, idx, depth, x, y) {
      SplitIsAboveMinimum(cfg, cu, idx, depth, x, y);
      SplitFacts(cfg, cu, flags, idx, depth, x, y);
    }
  }

  /**
   * A CU is coded as a leaf (it has a FinishCu at its own partition and
   * depth) exactly when it is not split; a CU crossing the picture edge is
   * always split and codes nothing at its own depth but its flag raises.
   */
  lemma LeafIffNotSplit(cfg: Config, cu: CodingTree, flags: QpFlags, idx: nat, depth: nat, x: nat, y: nat)
    requires ValidConfig(cfg) && depth <= cfg.log2DiffMaxMin && Starts(cfg, x, y)
    ensures Syntax(FinishCu, idx, depth) in Node(cfg, cu, flags, idx, depth, x, y).events <==>
      !Descends(cfg, cu, idx, depth, x, y)
    ensures !Inside(cfg, x, y, depth) ==> OnlyRaisesAt(Node(cfg, cu, flags, idx, depth, x, y).events, depth)
  {
    if Descends(cfg, cu, idx, depth, x, y) {
      SplitIsAboveMinimum(cfg, cu, idx, depth, x, y);
      SplitFacts(cfg, cu, flags, idx, depth, x, y);
    } else {
      var leaf := Leaf(cfg, cu(idx), flags, idx, depth).events;
      LeafEndsWithFinishCu(cfg, cu(idx), depth);
      assert leaf[|leaf| - 1] == Syntax(FinishCu, idx, depth);
    }
  }

  lemma AppendAssociates<T>(a: seq<T>, b: seq<T>, c: seq<T>)
    ensures a + b + c == a + (b + c)
  {
  }

  /** The CU encoder's syntax output and flag state. */
  class CuEncoder {
    var trace: seq<Syntax>
    var dqpFlag: bool
    var codeChromaQpAdjFlag: bool

    function Flags(): QpFlags
      reads this
    {
      QpFlags(dqpFlag, codeChromaQpAdjFlag)
    }

    constructor ()
      ensures trace == [] && !dqpFlag && !codeChromaQpAdjFlag
    {
      trace := [];
      dqpFlag := false;
      codeChromaQpAdjFlag := false;
    }

    /** The flag raises, the transquant-bypass flag and the skip flag of a leaf CU. */
    method LeafHeadSyntax(cfg: Config, depth: nat) returns (kinds: seq<Kind>)
      modifies this
      ensures trace == old(trace)
      ensures kinds == LeafHead(cfg, depth)
      ensures Flags() == RaiseAtLeaf(cfg, old(Flags()), depth)
    {
      kinds := [];
      if depth <= cfg.maxCuDqpDepth && cfg.useDqp {
        dqpFlag := true;
        kinds := kinds + [DqpFlagRaised];
      }
      if depth <= cfg.chromaQpOffsetDepth && cfg.useChromaQpAdj {
        codeChromaQpAdjFlag := true;
        kinds := kinds + [ChromaQpAdjFlagRaised];
      }
      if cfg.transquantBypassEnabled {
        kinds := kinds + [TransquantBypassFlag];
      }
      if !cfg.intraSlice {
        kinds := kinds + [SkipFlag];
      }
    }

    /** The part of a leaf CU after the skip flag, writing back the flags the entropy coder left. */
    method LeafBodySyntax(info: PartInfo) returns (kinds: seq<Kind>)
      modifies this
      ensures trace == old(trace)
      ensures kinds == LeafBody(info)
      ensures Flags() == if WritesBackFlags(info) then Consume(old(Flags()), info) else old(Flags())
    {
      if info.skipped {
        kinds := [MergeIndex, FinishCu];
        return;
      }
      kinds := [PredModeFlag, PaletteModeInfo];
      if info.palette {
        dqpFlag := dqpFlag && !info.codesDqp;
        codeChromaQpAdjFlag := codeChromaQpAdjFlag && !info.codesChromaQpAdj;
        kinds := kinds + [FinishCu];
        return;
      }
      kinds := kinds + [PartSizeSyntax];
      if info.intra && info.partSize == Size2Nx2N {
        kinds := kinds + [IpcmInfo];
        if info.ipcm {
          kinds := kinds + [FinishCu];
          return;
        }
      }
      kinds := kinds + [PredInfo, Coefficients];
      dqpFlag := dqpFlag && !info.codesDqp;
      codeChromaQpAdjFlag := codeChromaQpAdjFlag && !info.codesChromaQpAdj;
      kinds := kinds + [FinishCu];
    }

    /** Appends the syntax of a leaf CU. */
    method EncodeLeaf(cfg: Config, info: PartInfo, idx: nat, depth: nat)
      modifies this
      ensures trace == old(trace) + Leaf(cfg, info, old(Flags()), idx, depth).events
      ensures Flags() == Leaf(cfg, info, old(Flags()), idx, depth).flags
    {
      var head := LeafHeadSyntax(cfg, depth);
      var body := LeafBodySyntax(info);
      trace := trace + Tagged(head + body, idx, depth);
    }

    /** The flag raises of a split CU. */
    method RaiseSplitFlags(cfg: Config, idx: nat, depth: nat)
      modifies this
      ensures trace == old(trace) + Tagged(SplitRaises(cfg, depth), idx, depth)
      ensures Flags() == RaiseAtSplit(cfg, old(Flags()), depth)
    {
      var kinds := [];
      if depth == cfg.maxCuDqpDepth && cfg.useDqp {
        dqpFlag := true;
        kinds := kinds + [DqpFlagRaised];
      }
      if depth == cfg.chromaQpOffsetDepth && cfg.useChromaQpAdj {
        codeChromaQpAdjFlag := true;
        kinds := kinds + [ChromaQpAdjFlagRaised];
      }
      trace := trace + Tagged(kinds, idx, depth);
    }

    /** xEncodeCU: appends the syntax of the CU and everything below it. */
    method EncodeCu(cfg: Config, cu: CodingTree, absPartIdx: nat, depth: nat, x: nat, y: nat)
      requires depth <= cfg.log2DiffMaxMin && Starts(cfg, x, y)
      modifies this
      decreases cfg.log2DiffMaxMin - depth, 3
      ensures trace == old(trace) + Node(cfg, cu, old(Flags()), absPartIdx, depth, x, y).events
      ensures Flags() == Node(cfg, cu, old(Flags()), absPartIdx, depth, x, y).flags
    {
      ghost var head := Head(cfg, absPartIdx, depth, x, y);
      if Inside(cfg, x, y, depth) {
        trace := trace + [Syntax(SplitFlag, absPartIdx, depth)];
      }
      assert trace == old(trace) + head;
      if !Descends(cfg, cu, absPartIdx, depth, x, y) {
        ghost var leaf := Leaf(cfg, cu(absPartIdx), Flags(), absPartIdx, depth);
        EncodeLeaf(cfg, cu(absPartIdx), absPartIdx, depth);
        AppendAssociates(old(trace), head, leaf.events);
        return;
      }
      SplitIsAboveMinimum(cfg, cu, absPartIdx, depth, x, y);
      ghost var split := Split(cfg, cu, Flags(), absPartIdx, depth, x, y);
      EncodeSplit(cfg, cu, absPartIdx, depth, x, y);
      AppendAssociates(old(trace), head, split.events);
    }

    /** A split CU: its flag raises, then its children. */
    method EncodeSplit(cfg: Config, cu: CodingTree, absPartIdx: nat, depth: nat, x: nat, y: nat)
      requires depth < cfg.log2DiffMaxMin
      modifies this
      decreases cfg.log2DiffMaxMin - depth, 2
      ensures trace == old(trace) + Split(cfg, cu, old(Flags()), absPartIdx, depth, x, y).events
      ensures Flags() == Split(cfg, cu, old(Flags()), absPartIdx, depth, x, y).flags
    {
      RaiseSplitFlags(cfg, absPartIdx, depth);
      ghost var raises := Tagged(SplitRaises(cfg, depth), absPartIdx, depth);
      ghost var children := Children(cfg, cu, Flags(), absPartIdx, depth, x, y, 0);
      EncodeChildren(cfg, cu, absPartIdx, depth, x, y);
      AppendAssociates(old(trace), raises, children.events);
    }

    /**
     * The children loop of xEncodeCU: the four quadrants in z-order, the
     * partition index advancing by uiQNumParts, each quadrant whose top-left
     * corner lies in the picture coded in turn.
     */
    method EncodeChildren(cfg: Config, cu: CodingTree, absPartIdx: nat, depth: nat, x: nat, y: nat)
      requires depth < cfg.log2DiffMaxMin
      modifies this
      decreases cfg.log2DiffMaxMin - depth, 1
      ensures trace == old(trace) + Children(cfg, cu, old(Flags()), absPartIdx, depth, x, y, 0).events
      ensures Flags() == Children(cfg, cu, old(Flags()), absPartIdx, depth, x, y, 0).flags
    {
      var qNumParts := QNumParts(cfg, depth);
      ghost var whole := Children(cfg, cu, Flags(), absPartIdx, depth, x, y, 0);
      var idx := absPartIdx;
      var partUnitIdx := 0;
      while partUnitIdx < 4
        invariant partUnitIdx <= 4
        invariant old(trace) + whole.events ==
          trace + Children(cfg, cu, Flags(), idx, depth, x, y, partUnitIdx).events
        invariant whole.flags == Children(cfg, cu, Flags(), idx, depth, x, y, partUnitIdx).flags
      {
        ghost var rest := Children(cfg, cu, Flags(), idx, depth, x, y, partUnitIdx);
        ghost var child := ChildAt(cfg, cu, Flags(), idx, depth, x, y, partUnitIdx);
        EncodeChild(cfg, cu, idx, depth, x, y, partUnitIdx);
        partUnitIdx := partUnitIdx + 1;
        idx := idx + qNumParts;
        assert rest.events == child.events + Children(cfg, cu, Flags(), idx, depth, x, y, partUnitIdx).events;
      }
    }

    /** One pass of the children loop: the child is coded when its top-left corner lies in the picture. */
    method EncodeChild(cfg: Config, cu: CodingTree, idx: nat, depth: nat, x: nat, y: nat, k: nat)
      requires depth < cfg.log2DiffMaxMin
      modifies this
      decreases cfg.log2DiffMaxMin - depth, 0
      ensures trace == old(trace) + ChildAt(cfg, cu, old(Flags()), idx, depth, x, y, k).events
      ensures Flags() == ChildAt(cfg, cu, old(Flags()), idx, depth, x, y, k).flags
    {
      var cx := ChildX(cfg, x, depth, k);
      var cy := ChildY(cfg, y, depth, k);
      if Starts(cfg, cx, cy) {
        EncodeCu(cfg, cu, idx, depth + 1, cx, cy);
      } else {
        assert trace == old(trace) + [];
      }
    }

    /**
     * encodeCtu: both flags are raised when their tools are enabled, then
     * the coding tree is coded from the root CU at the CTU origin.
     */
    method EncodeCtu(cfg: Config, cu: CodingTree, ctuX: nat, ctuY: nat)
      requires Starts(cfg, ctuX, ctuY)
      modifies this
      ensures trace == old(trace) +
        Node(cfg, cu, QpFlags(old(dqpFlag) || cfg.useDqp, old(codeChromaQpAdjFlag) || cfg.useChromaQpAdj), 0, 0, ctuX, ctuY).events
      ensures Flags() ==
        Node(cfg, cu, QpFlags(old(dqpFlag) || cfg.useDqp, old(codeChromaQpAdjFlag) || cfg.useChromaQpAdj), 0, 0, ctuX, ctuY).flags
    {
      if cfg.useDqp {
        dqpFlag := true;
      }
      if cfg.useChromaQpAdj {
        codeChromaQpAdjFlag := true;
      }
      EncodeCu(cfg, cu, 0, 0, ctuX, ctuY);
    }
  }
}
