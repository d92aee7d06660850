/**
 * The recursive CU search of the encoder (xCompressCU), reduced to its
 * decision logic. A CU inside the picture runs its mode sweep, a series of
 * RD checks whose results are offered in order to the best/temp tracker; a
 * CU crossing the picture edge runs none. A CU the sweep chose a mode for
 * is charged the bits of the split flag coded as 0. Then, when the split
 * gate allows it, the four children are searched (those whose top-left
 * corner lies in the picture) or left empty (the others), their bits,
 * distortion and, with luma-level delta-QP, costs are added up into a split candidate, the slice
 * byte-budget sentinel may make the unsplit best infeasible, and the split
 * candidate is offered to the tracker like any other mode.
 *
 * Positions and sizes are counted in minimum-CU units (HEVC picture sizes
 * are multiples of the minimum CU size), so a CU at depth d is
 * 2^(log2DiffMaxMin - d) units wide. The RD checks, the entropy coder and
 * the neural network are oracles.
 */
module CuSearch {
  import opened CuTypes
  import opened BestMode
  import ModeGating

  /** The encoder settings the decision reads. */
  datatype SearchEnv = SearchEnv(
    picWidth: nat,              // picture width, in minimum-CU units
    picHeight: nat,
    log2DiffMaxMin: nat,        // depth of the minimum CU
    lambda: real,
    useEarlyCU: bool,
    fastDeltaQp: bool,
    fastDeltaQpMaxSize: nat,    // fastDeltaQPCuMaxSize, in minimum-CU units
    lumaLevelDqp: bool,         // luma-level delta-QP mapping on and maxCuDQPDepth >= 1
    vetoAsWritten: bool         // the network veto also reaches CUs on the picture edge
  )

  predicate ValidEnv(env: SearchEnv)
  {
    env.lambda >= 0.0
  }

  /** What the search learns from code this model does not contain, per CU (x, y, depth). */
  datatype Oracles = Oracles(
    offers: (nat, nat, nat) -> seq<Candidate>,          // the mode sweep's RD-check results, in order
    terminateAll: (nat, nat, nat) -> bool,              // hash motion search ended all further RDO
    splitFlagBits: (nat, nat, nat) -> nat,              // bits of the split flag coded as 1
    noSplitFlagBits: (nat, nat, nat) -> nat,            // bits of the split flag coded as 0
    network: (nat, nat, nat) -> ModeGating.NeuralSplit, // the neural split veto
    budget: ModeGating.SliceBudget                      // the slice state of the current CTU
  )

  /** The CU lies wholly inside the picture (not bBoundary). */
  predicate Inside(env: SearchEnv, x: nat, y: nat, d: nat)
    requires d <= env.log2DiffMaxMin
  {
    x + CuSize(env.log2DiffMaxMin, d) <= env.picWidth && y + CuSize(env.log2DiffMaxMin, d) <= env.picHeight
  }

  /** The top-left corner of the CU lies in the picture. */
  predicate Starts(env: SearchEnv, x: nat, y: nat)
  {
    x < env.picWidth && y < env.picHeight
  }

  /** Child k of the CU at (x, y, d): 0 top-left, 1 top-right, 2 bottom-left, 3 bottom-right. */
  function ChildX(env: SearchEnv, x: nat, d: nat, k: nat): nat
    requires d < env.log2DiffMaxMin
  {
    if k % 2 == 1 then x + CuSize(env.log2DiffMaxMin, d + 1) else x
  }

  function ChildY(env: SearchEnv, y: nat, d: nat, k: nat): nat
    requires d < env.log2DiffMaxMin
  {
    if k >= 2 then y + CuSize(env.log2DiffMaxMin, d + 1) else y
  }

  /** A child of the split: whether it was searched, and its best CU. */
  datatype Child = Child(searched: bool, best: Candidate)

  /** cost + cost on doubles; MAX_DOUBLE absorbs. */
  function AddCost(a: Cost, b: Cost): (r: Cost)
    ensures r.Finite? <==> a.Finite? && b.Finite?
  {
    if a.Finite? && b.Finite? then Finite(a.value + b.value) else MaxDouble
  }

  /** Sum of the children's bits (copyPartFrom adds them up). */
  function ChildBits(cs: seq<Child>): nat
  {
    if |cs| == 0 then 0 else ChildBits(cs[..|cs| - 1]) + cs[|cs| - 1].best.bits
  }

  function ChildDistortion(cs: seq<Child>): nat
  {
    if |cs| == 0 then 0 else ChildDistortion(cs[..|cs| - 1]) + cs[|cs| - 1].best.distortion
  }

  /** splitTotalCost: the sum of the costs of the searched children. */
  function ChildCost(cs: seq<Child>): Cost
  {
    if |cs| == 0 then Finite(0.0)
    else if cs[|cs| - 1].searched then AddCost(ChildCost(cs[..|cs| - 1]), cs[|cs| - 1].best.cost)
    else ChildCost(cs[..|cs| - 1])
  }

  /** Every searched child has a finite cost. */
  predicate SearchedFinite(cs: seq<Child>)
  {
    forall j :: 0 <= j < |cs| && cs[j].searched ==> cs[j].best.cost.Finite?
  }

  lemma {:induction false} ChildCostFinite(cs: seq<Child>)
    ensures SearchedFinite(cs) ==> ChildCost(cs).Finite?
    decreases |cs|
  {
    if |cs| > 0 {
      ChildCostFinite(cs[..|cs| - 1]);
    }
  }

  /**
   * The split candidate: the children's data at their parts (the part
   * shape, mode and flags read at part 0 are the first child's), their bits
   * plus the split flag's, their distortion, and as cost either the RD cost
   * of those totals or, with luma-level delta-QP, the children's costs plus
   * the cost of the split flag's bits.
   */
  function SplitTemp(env: SearchEnv, cs: seq<Child>, splitBits: nat): (r: Candidate)
    requires ValidEnv(env) && |cs| >= 1
    ensures r.part == cs[0].best.part && r.mode == cs[0].best.mode
    ensures r.bits == ChildBits(cs) + splitBits && r.distortion == ChildDistortion(cs)
    ensures !env.lumaLevelDqp ==> r.cost.Finite? && r.cost.value >= ChildDistortion(cs) as real
    ensures env.lumaLevelDqp && SearchedFinite(cs) ==> r.cost.Finite?
  {
    var bits := ChildBits(cs) + splitBits;
    var distortion := ChildDistortion(cs);
    var cost := if env.lumaLevelDqp then AddCost(ChildCost(cs), RdCost(env.lambda, splitBits, 0))
                else RdCost(env.lambda, bits, distortion);
    ChildCostFinite(cs);
    cs[0].best.(cost := cost, bits := bits, distortion := distortion)
  }

  /** bSubBranch, with the veto as written or kept off the picture edge. */
  predicate SubBranchOf(env: SearchEnv, o: Oracles, x: nat, y: nat, d: nat, boundary: bool, best: Candidate)
  {
    if env.vetoAsWritten
    then ModeGating.SubBranchAsWritten(boundary, env.useEarlyCU, best, o.network(x, y, d), d, env.log2DiffMaxMin)
    else ModeGating.SubBranch(boundary, env.useEarlyCU, best, o.network(x, y, d), d, env.log2DiffMaxMin)
  }

  /**
   * A chosen unsplit CU pays for the split flag coded as 0: its bits grow by
   * the flag's and its cost becomes the RD cost of its new totals. A CU with
   * nothing chosen (cost MAX_DOUBLE) is left as it is.
   */
  function ChargeNoSplit(lambda: real, best: Candidate, flagBits: nat): (r: Candidate)
    requires lambda >= 0.0
    ensures r.cost.Finite? <==> best.cost.Finite?
    ensures r.part == best.part && r.mode == best.mode && r.distortion == best.distortion
    ensures r.skipped == best.skipped && r.intraBC == best.intraBC && r.rootCbf == best.rootCbf
    ensures best.cost.Finite? ==> r.bits == best.bits + flagBits
    ensures best.cost.Finite? ==> r.cost == RdCost(lambda, best.bits + flagBits, best.distortion)
    ensures !best.cost.Finite? ==> r == best
  {
    if best.cost.Finite?
    then best.(bits := best.bits + flagBits, cost := RdCost(lambda, best.bits + flagBits, best.distortion))
    else best
  }

  /** The best CU after the mode sweep, charged the split flag's 0 bits: nothing chosen on the picture edge. */
  function SweepResult(env: SearchEnv, o: Oracles, x: nat, y: nat, d: nat): Candidate
    requires ValidEnv(env) && d <= env.log2DiffMaxMin
  {
    if Inside(env, x, y, d)
    then ChargeNoSplit(env.lambda, SweepBest(Unset(), o.offers(x, y, d)), o.noSplitFlagBits(x, y, d))
    else Unset()
  }

  /** The split gate; terminateAllFurtherRDO can only be raised by the sweep. */
  predicate SplitGate(env: SearchEnv, o: Oracles, x: nat, y: nat, d: nat)
    requires ValidEnv(env) && d <= env.log2DiffMaxMin
  {
    var boundary := !Inside(env, x, y, d);
    ModeGating.RecurseGate(!boundary && o.terminateAll(x, y, d),
                           SubBranchOf(env, o, x, y, d, boundary, SweepResult(env, o, x, y, d)),
                           d, env.log2DiffMaxMin, env.fastDeltaQp, CuSize(env.log2DiffMaxMin, d),
                           env.fastDeltaQpMaxSize, boundary)
  }

  /** xCompressCU: the best CU the search leaves for (x, y, d). */
  function Compress(env: SearchEnv, o: Oracles, x: nat, y: nat, d: nat): Candidate
    requires ValidEnv(env) && d <= env.log2DiffMaxMin
    decreases env.log2DiffMaxMin - d, 3
  {
    var best := SweepResult(env, o, x, y, d);
    if SplitGate(env, o, x, y, d)
    then Keep(ModeGating.ApplySentinel(best, o.budget), Split(env, o, x, y, d))
    else best
  }

  /** The split candidate of the CU at (x, y, d). */
  function Split(env: SearchEnv, o: Oracles, x: nat, y: nat, d: nat): Candidate
    requires ValidEnv(env) && d < env.log2DiffMaxMin
    decreases env.log2DiffMaxMin - d, 2
  {
    SplitTemp(env, Children(env, o, x, y, d), if Inside(env, x, y, d) then o.splitFlagBits(x, y, d) else 0)
  }

  function Children(env: SearchEnv, o: Oracles, x: nat, y: nat, d: nat): (cs: seq<Child>)
    requires ValidEnv(env) && d < env.log2DiffMaxMin
    ensures |cs| == 4
    decreases env.log2DiffMaxMin - d, 1
  {
    [ChildAt(env, o, x, y, d, 0), ChildAt(env, o, x, y, d, 1),
     ChildAt(env, o, x, y, d, 2), ChildAt(env, o, x, y, d, 3)]
  }

  /**
   * A child whose top-left corner is in the picture is searched; any other
   * is left as initialised, with no bits, no distortion and no cost counted.
   */
  function ChildAt(env: SearchEnv, o: Oracles, x: nat, y: nat, d: nat, k: nat): (c: Child)
    requires ValidEnv(env) && d < env.log2DiffMaxMin
    ensures c.searched <==> ModeGating.ChildSearched(ChildX(env, x, d, k), ChildY(env, y, d, k),
                                                     env.picWidth, env.picHeight)
    ensures !c.searched ==> c.best == Unset() && c.best.bits == 0 && c.best.distortion == 0
    decreases env.log2DiffMaxMin - d, 0
  {
    var cx := ChildX(env, x, d, k);
    var cy := ChildY(env, y, d, k);
    if ModeGating.ChildSearched(cx, cy, env.picWidth, env.picHeight)
    then Child(true, Compress(env, o, cx, cy, d + 1))
    else Child(false, Unset())
  }

  // ---------------------------------------------------------------------
  // What the search guarantees
  // ---------------------------------------------------------------------

  /**
   * The unsplit best that competes with the split is what the mode sweep
   * chose, with the split flag's 0 bits added and its cost recomputed from
   * its totals. The split candidate replaces it only through the split gate
   * and only when strictly cheaper than it (after the sentinel); otherwise
   * the CU keeps that unsplit best.
   */
  lemma SplitChosenOnlyWhenCheaper(env: SearchEnv, o: Oracles, x: nat, y: nat, d: nat)
    requires ValidEnv(env) && d <= env.log2DiffMaxMin
    ensures var sweep := SweepBest(Unset(), o.offers(x, y, d));
            var best := SweepResult(env, o, x, y, d);
            var bits := sweep.bits + o.noSplitFlagBits(x, y, d);
            if Inside(env, x, y, d) && sweep.cost.Finite?
            then best == sweep.(bits := bits, cost := RdCost(env.lambda, bits, sweep.distortion))
            else best.cost == MaxDouble
    ensures var r := Compress(env, o, x, y, d);
            var best := SweepResult(env, o, x, y, d);
            r == best ||
            (SplitGate(env, o, x, y, d) && d < env.log2DiffMaxMin &&
             ((r == Split(env, o, x, y, d) &&
               Less(r.cost, ModeGating.ApplySentinel(best, o.budget).cost)) ||
              r == ModeGating.ApplySentinel(best, o.budget)))
    ensures !SplitGate(env, o, x, y, d) ==> Compress(env, o, x, y, d) == SweepResult(env, o, x, y, d)
  {
  }

  /** A minimum-size CU whose corner is in the picture lies wholly inside it. */
  lemma MinimumCuIsInside(env: SearchEnv, x: nat, y: nat)
    requires Starts(env, x, y)
    ensures Inside(env, x, y, env.log2DiffMaxMin)
  {
  }

  /** Every RD check that yields a finite cost has set the part size and the mode. */
  predicate OffersDecide(offers: seq<Candidate>)
  {
    (exists i :: 0 <= i < |offers| && offers[i].cost.Finite?) &&
    (forall i :: 0 <= i < |offers| && offers[i].cost.Finite? ==>
       offers[i].part != NumberOfPartSizes && offers[i].mode != ModeNone)
  }

  /** A CU with a chosen mode: part size and prediction mode set, and a finite cost. */
  predicate Decided(c: Candidate)
  {
    c.part != NumberOfPartSizes && c.mode != ModeNone && c.cost.Finite?
  }

  /** The sweep of an inside CU ends decided when its checks yield a finite candidate. */
  lemma SweepDecides(offers: seq<Candidate>)
    requires OffersDecide(offers)
    ensures Decided(SweepBest(Unset(), offers))
  {
    var r := SweepBest(Unset(), offers);
    SweepBestIsMinimum(Unset(), offers);
    var i :| 0 <= i < |offers| && offers[i].cost.Finite?;
    assert LessEq(r.cost, offers[i].cost);
  }

  /** Every CU inside the picture gets at least one finite, decided RD check. */
  ghost predicate SweepsDecide(env: SearchEnv, o: Oracles)
  {
    forall x: nat, y: nat, d: nat :: d <= env.log2DiffMaxMin && Inside(env, x, y, d) ==>
      OffersDecide(o.offers(x, y, d))
  }

  /**
   * With the veto kept off the picture edge, every CU whose corner lies in
   * the picture ends with a set part size, a set prediction mode and a
   * finite cost (the source asserts this for CUs inside the picture), and a
   * CU crossing the edge always takes its split candidate.
   */
  lemma {:induction false} CompressDecides(env: SearchEnv, o: Oracles, x: nat, y: nat, d: nat)
    requires ValidEnv(env) && d <= env.log2DiffMaxMin && !env.vetoAsWritten
    requires SweepsDecide(env, o) && Starts(env, x, y)
    ensures Decided(Compress(env, o, x, y, d))
    ensures !Inside(env, x, y, d) ==> d < env.log2DiffMaxMin && Compress(env, o, x, y, d) == Split(env, o, x, y, d)
    decreases env.log2DiffMaxMin - d, 2
  {
    var best := SweepResult(env, o, x, y, d);
    if Inside(env, x, y, d) {
      SweepDecides(o.offers(x, y, d));
      if SplitGate(env, o, x, y, d) {
        SplitDecides(env, o, x, y, d);
      }
    } else {
      if d == env.log2DiffMaxMin {
        MinimumCuIsInside(env, x, y);
      }
      ModeGating.BoundaryCuAlwaysSplits(env.useEarlyCU, o.network(x, y, d), d, env.log2DiffMaxMin);
      assert SplitGate(env, o, x, y, d);
      SplitDecides(env, o, x, y, d);
    }
  }

  /** The split candidate of a CU whose corner lies in the picture is decided. */
  lemma {:induction false} SplitDecides(env: SearchEnv, o: Oracles, x: nat, y: nat, d: nat)
    requires ValidEnv(env) && d < env.log2DiffMaxMin && !env.vetoAsWritten
    requires SweepsDecide(env, o) && Starts(env, x, y)
    ensures Decided(Split(env, o, x, y, d))
    decreases env.log2DiffMaxMin - d, 1
  {
    var cs := Children(env, o, x, y, d);
    ChildDecided(env, o, x, y, d, 0);
    ChildDecided(env, o, x, y, d, 1);
    ChildDecided(env, o, x, y, d, 2);
    ChildDecided(env, o, x, y, d, 3);
    forall j | 0 <= j < 4 && cs[j].searched
      ensures cs[j].best.cost.Finite?
    {
      if j == 0 {
      } else if j == 1 {
      } else if j == 2 {
      } else {
      }
    }
  }

  /** A searched child of a CU whose corner lies in the picture is decided; child 0 is searched. */
  lemma {:induction false} ChildDecided(env: SearchEnv, o: Oracles, x: nat, y: nat, d: nat, k: nat)
    requires ValidEnv(env) && d < env.log2DiffMaxMin && !env.vetoAsWritten
    requires SweepsDecide(env, o) && Starts(env, x, y)
    ensures k == 0 ==> ChildAt(env, o, x, y, d, k).searched
    ensures ChildAt(env, o, x, y, d, k).searched ==> Decided(ChildAt(env, o, x, y, d, k).best)
    decreases env.log2DiffMaxMin - d, 0
  {
    var cx := ChildX(env, x, d, k);
    var cy := ChildY(env, y, d, k);
    if ModeGating.ChildSearched(cx, cy, env.picWidth, env.picHeight) {
      CompressDecides(env, o, cx, cy, d + 1);
    }
  }

  /**
   * With the veto as written, any CU crossing the picture edge that the
   * network declines to split ends with nothing chosen; for one it lets
   * through, the split gate is open, as in the corrected decision.
   */
  lemma VetoLeavesBoundaryCuUndecided(env: SearchEnv, o: Oracles, x: nat, y: nat, d: nat)
    requires ValidEnv(env) && d <= env.log2DiffMaxMin && env.vetoAsWritten
    requires Starts(env, x, y) && !Inside(env, x, y, d)
    ensures ModeGating.NeuralVetoApplies(o.network(x, y, d), d, env.log2DiffMaxMin) ==>
      Compress(env, o, x, y, d) == Unset() && !Decided(Compress(env, o, x, y, d))
    ensures !ModeGating.NeuralVetoApplies(o.network(x, y, d), d, env.log2DiffMaxMin) ==>
      d < env.log2DiffMaxMin && SplitGate(env, o, x, y, d)
  {
  }

  /** An instance: a 2-unit CTU over a 1x1 picture that the network declines to split. */
  lemma VetoLeavesBoundaryCtuUndecided()
    ensures var env := SearchEnv(1, 1, 1, 1.0, false, false, 0, false, true);
            var o := Oracles((x: nat, y: nat, d: nat) => [], (x: nat, y: nat, d: nat) => false,
                             (x: nat, y: nat, d: nat) => 0, (x: nat, y: nat, d: nat) => 0,
                             (x: nat, y: nat, d: nat) => ModeGating.NeuralSplit(true, 0, true, true),
                             ModeGating.SliceBudget(false, 0, 0, false, 0, 0, 0, 0, 0));
            Compress(env, o, 0, 0, 0) == Unset() && !Decided(Compress(env, o, 0, 0, 0))
  {
    var env := SearchEnv(1, 1, 1, 1.0, false, false, 0, false, true);
    assert CuSize(env.log2DiffMaxMin, 0) == 2;
  }

  // ---------------------------------------------------------------------
  // The search, step by step
  // ---------------------------------------------------------------------

  /** The mode sweep: each RD check's result is offered to the tracker in turn. */
  method ModeSweep(offers: seq<Candidate>) returns (best: Candidate)
    ensures best == SweepBest(Unset(), offers)
  {
    best := Unset();
    var i := 0;
    while i < |offers|
      invariant i <= |offers|
      invariant best == SweepBest(Unset(), offers[..i])
    {
      assert offers[..i + 1][..i] == offers[..i];
      best := Keep(best, offers[i]);
      i := i + 1;
    }
    assert offers[..i] == offers;
  }

  /** xCompressCU for the CU at (x, y, d). */
  method CompressCU(env: SearchEnv, o: Oracles, x: nat, y: nat, d: nat) returns (best: Candidate)
    requires ValidEnv(env) && d <= env.log2DiffMaxMin
    ensures best == Compress(env, o, x, y, d)
    decreases env.log2DiffMaxMin - d, 3
  {
    var boundary := !Inside(env, x, y, d);
    best := Unset();
    if !boundary {
      best := ModeSweep(o.offers(x, y, d));
      if best.cost != MaxDouble {
        // the split flag coded as 0
        var bits := best.bits + o.noSplitFlagBits(x, y, d);
        best := best.(bits := bits, cost := RdCost(env.lambda, bits, best.distortion));
      }
    }
    var terminateAll := !boundary && o.terminateAll(x, y, d);
    var subBranch := SubBranchOf(env, o, x, y, d, boundary, best);
    if ModeGating.RecurseGate(terminateAll, subBranch, d, env.log2DiffMaxMin, env.fastDeltaQp,
                              CuSize(env.log2DiffMaxMin, d), env.fastDeltaQpMaxSize, boundary) {
      var temp := SplitCU(env, o, x, y, d);
      best := ModeGating.ApplySentinel(best, o.budget);
      best := Keep(best, temp);
    }
  }

  /** The split branch: the children, then the split candidate from their totals. */
  method SplitCU(env: SearchEnv, o: Oracles, x: nat, y: nat, d: nat) returns (temp: Candidate)
    requires ValidEnv(env) && d < env.log2DiffMaxMin
    ensures temp == Split(env, o, x, y, d)
    decreases env.log2DiffMaxMin - d, 2
  {
    var cs, bits, distortion, splitTotalCost := SearchChildren(env, o, x, y, d);
    var splitBits := if Inside(env, x, y, d) then o.splitFlagBits(x, y, d) else 0;
    var cost := if env.lumaLevelDqp then AddCost(splitTotalCost, RdCost(env.lambda, splitBits, 0))
                else RdCost(env.lambda, bits + splitBits, distortion);
    temp := cs[0].best.(cost := cost, bits := bits + splitBits, distortion := distortion);
  }

  /** The loop over the four children, adding up bits, distortion and splitTotalCost. */
  method SearchChildren(env: SearchEnv, o: Oracles, x: nat, y: nat, d: nat)
    returns (cs: seq<Child>, bits: nat, distortion: nat, splitTotalCost: Cost)
    requires ValidEnv(env) && d < env.log2DiffMaxMin
    ensures cs == Children(env, o, x, y, d)
    ensures bits == ChildBits(cs) && distortion == ChildDistortion(cs) && splitTotalCost == ChildCost(cs)
    decreases env.log2DiffMaxMin - d, 1
  {
    cs := [];
    bits := 0;
    distortion := 0;
    splitTotalCost := Finite(0.0);
    var k := 0;
    while k < 4
      invariant k <= 4 && |cs| == k
      invariant forall j :: 0 <= j < k ==> cs[j] == ChildAt(env, o, x, y, d, j)
      invariant bits == ChildBits(cs) && distortion == ChildDistortion(cs)
      invariant splitTotalCost == ChildCost(cs)
    {
      var child := SearchChild(env, o, x, y, d, k);
      if child.searched {
        splitTotalCost := AddCost(splitTotalCost, child.best.cost);
      }
      bits := bits + child.best.bits;
      distortion := distortion + child.best.distortion;
      assert (cs + [child])[..k] == cs;
      cs := cs + [child];
      k := k + 1;
    }
    assert cs == Children(env, o, x, y, d);
  }

  /** Child k: searched when its corner is in the picture, else left as initialised. */
  method SearchChild(env: SearchEnv, o: Oracles, x: nat, y: nat, d: nat, k: nat) returns (child: Child)
    requires ValidEnv(env) && d < env.log2DiffMaxMin
    ensures child == ChildAt(env, o, x, y, d, k)
    decreases env.log2DiffMaxMin - d, 0
  {
    var cx := ChildX(env, x, d, k);
    var cy := ChildY(env, y, d, k);
    if ModeGating.ChildSearched(cx, cy, env.picWidth, env.picHeight) {
      var sub := CompressCU(env, o, cx, cy, d + 1);
      child := Child(true, sub);
    } else {
      child := Child(false, Unset());
    }
  }
}
