/**
 * The QP window of one CU at one depth, and the QP loops that xCompressCU
 * runs over it. The window is centred on the base QP (xComputeQP) and
 * clipped to [-QpBDOffsetY, MAX_QP]; luma-level QP mapping and rate
 * control collapse it to a single QP. When transquant bypass (TQB) is
 * enabled, the loop variable starts one below the lowest QP, and that
 * first iteration costs the lossless mode at the lowest QP instead.
 */
module QpWindow {
  import opened CuTypes

  /**
   * xComputeQP: the slice QP plus the adaptive-QP offset (when adaptive QP
   * is on), clipped to the legal luma QP range. The offset itself is a
   * floating-point function of block activity and is an input here.
   */
  function ComputeQP(sliceQp: int, qpBdOffset: nat, useAdaptiveQP: bool, aqOffset: int): (qp: int)
    ensures -(qpBdOffset as int) <= qp <= MAX_QP
    ensures !useAdaptiveQP && -(qpBdOffset as int) <= sliceQp <= MAX_QP ==> qp == sliceQp
    ensures useAdaptiveQP && -(qpBdOffset as int) <= sliceQp + aqOffset <= MAX_QP ==> qp == sliceQp + aqOffset
  {
    Clip3(-(qpBdOffset as int), MAX_QP, sliceQp + (if useAdaptiveQP then aqOffset else 0))
  }

  /** The encoder and picture settings that shape the window. */
  datatype WindowConfig = WindowConfig(
    maxCuDQPDepth: nat,    // PPS max_cu_qp_delta_depth
    maxDeltaQP: int,       // encoder MaxDeltaQP
    qpBdOffset: nat,       // SPS QpBDOffsetY
    lumaMapping: bool,     // luma-level-to-delta-QP mapping enabled
    rateCtrl: bool,        // rate control enabled
    tqbEnabled: bool,      // PPS transquant_bypass_enabled_flag
    tqbForced: bool        // every CU forced to transquant bypass
  )

  datatype QpRange = QpRange(minQP: int, maxQP: int)

  /**
   * The window before the RD checks of a CU: base +/- MaxDeltaQP (clipped)
   * at depths that may carry a delta QP, the inherited QP of the temporary
   * CU below them; the luma-level offset (held for the whole CTU below the
   * delta-QP depth) replaces it with one QP, and rate control with its own.
   */
  function HeadWindow(cfg: WindowConfig, depth: nat, baseQP: int, tempQP: int,
                      lumaQpOffset: int, rcQP: int): QpRange
  {
    var w0 :=
      if depth <= cfg.maxCuDQPDepth then
        QpRange(Clip3(-(cfg.qpBdOffset as int), MAX_QP, baseQP - cfg.maxDeltaQP),
                Clip3(-(cfg.qpBdOffset as int), MAX_QP, baseQP + cfg.maxDeltaQP))
      else QpRange(tempQP, tempQP);
    var w1 :=
      if cfg.lumaMapping then
        var q := Clip3(-(cfg.qpBdOffset as int), MAX_QP, baseQP - lumaQpOffset); QpRange(q, q)
      else w0;
    if cfg.rateCtrl then QpRange(rcQP, rcQP) else w1
  }

  /**
   * The luma-level offset in effect at a depth: recomputed from the block
   * at depths that may carry a delta QP, otherwise the one held from above.
   */
  function LumaOffsetAt(cfg: WindowConfig, depth: nat, held: int, computed: int): (o: int)
    ensures cfg.lumaMapping && depth <= cfg.maxCuDQPDepth ==> o == computed
    ensures !(cfg.lumaMapping && depth <= cfg.maxCuDQPDepth) ==> o == held
  {
    if cfg.lumaMapping && depth <= cfg.maxCuDQPDepth then computed else held
  }

  /**
   * At a delta-QP depth, without luma mapping or rate control and with a
   * non-negative MaxDeltaQP, the window is a non-empty legal QP interval
   * containing the (legal) base QP and at most 2*MaxDeltaQP wide; luma
   * mapping or rate control always leave exactly one QP.
   */
  lemma HeadWindowShape(cfg: WindowConfig, depth: nat, baseQP: int, tempQP: int,
                        lumaQpOffset: int, rcQP: int)
    ensures var w := HeadWindow(cfg, depth, baseQP, tempQP, lumaQpOffset, rcQP);
      (cfg.lumaMapping || cfg.rateCtrl ==> w.minQP == w.maxQP) &&
      (cfg.lumaMapping && !cfg.rateCtrl ==> -(cfg.qpBdOffset as int) <= w.minQP <= MAX_QP) &&
      (!cfg.lumaMapping && !cfg.rateCtrl && depth > cfg.maxCuDQPDepth ==> w == QpRange(tempQP, tempQP)) &&
      (!cfg.lumaMapping && !cfg.rateCtrl && depth <= cfg.maxCuDQPDepth && cfg.maxDeltaQP >= 0 ==>
        -(cfg.qpBdOffset as int) <= w.minQP <= w.maxQP <= MAX_QP &&
        w.maxQP - w.minQP <= 2 * cfg.maxDeltaQP &&
        (-(cfg.qpBdOffset as int) <= baseQP <= MAX_QP ==> w.minQP <= baseQP <= w.maxQP))
  {
  }

  /**
   * The window re-derived after the RD checks, for the split decision:
   * base +/- MaxDeltaQP exactly at the delta-QP depth, the base QP above
   * it, the temporary CU's QP below it; then the same luma-mapping and
   * rate-control overrides, and a forced bypass collapses it to its minimum.
   */
  function PostWindow(cfg: WindowConfig, depth: nat, baseQP: int, tempQP: int,
                      lumaQpOffset: int, rcQP: int): QpRange
  {
    var w0 :=
      if depth == cfg.maxCuDQPDepth then
        QpRange(Clip3(-(cfg.qpBdOffset as int), MAX_QP, baseQP - cfg.maxDeltaQP),
                Clip3(-(cfg.qpBdOffset as int), MAX_QP, baseQP + cfg.maxDeltaQP))
      else if depth < cfg.maxCuDQPDepth then QpRange(baseQP, baseQP)
      else QpRange(tempQP, tempQP);
    var w1 :=
      if cfg.lumaMapping then
        var q := Clip3(-(cfg.qpBdOffset as int), MAX_QP, baseQP - lumaQpOffset); QpRange(q, q)
      else w0;
    var w2 := if cfg.rateCtrl then QpRange(rcQP, rcQP) else w1;
    if cfg.tqbForced then QpRange(w2.minQP, w2.minQP) else w2
  }

  /**
   * The split loop only ranges over several QPs exactly at the delta-QP
   * depth (and only without luma mapping, rate control or forced bypass);
   * above that depth it uses the base QP alone.
   */
  lemma PostWindowShape(cfg: WindowConfig, depth: nat, baseQP: int, tempQP: int,
                        lumaQpOffset: int, rcQP: int)
    ensures var w := PostWindow(cfg, depth, baseQP, tempQP, lumaQpOffset, rcQP);
      (w.minQP != w.maxQP ==>
        depth == cfg.maxCuDQPDepth && !cfg.lumaMapping && !cfg.rateCtrl && !cfg.tqbForced) &&
      (depth < cfg.maxCuDQPDepth && !cfg.lumaMapping && !cfg.rateCtrl ==> w == QpRange(baseQP, baseQP)) &&
      (cfg.tqbForced ==> w.minQP == w.maxQP)
  {
  }

  /**
   * The loop bounds after the transquant-bypass set-up: `lowestQP` is the
   * lowest ordinary QP of the window; with bypass enabled the loop variable
   * starts one below it so that the first iteration can cost lossless mode.
   */
  datatype QpLoop = QpLoop(minQP: int, maxQP: int, lowestQP: int, addLowest: bool)

  predicate LoopWellFormed(l: QpLoop)
  {
    l.minQP == (if l.addLowest then l.lowestQP - 1 else l.lowestQP)
  }

  function TqbSetup(w: QpRange, tqbEnabled: bool, tqbForced: bool): (l: QpLoop)
    ensures LoopWellFormed(l)
    ensures l.lowestQP == w.minQP && l.addLowest == tqbEnabled
    ensures tqbEnabled && tqbForced ==> l.maxQP == l.minQP
    ensures !(tqbEnabled && tqbForced) ==> l.maxQP == w.maxQP
  {
    if tqbEnabled then
      QpLoop(w.minQP - 1, if tqbForced then w.minQP - 1 else w.maxQP, w.minQP, true)
    else QpLoop(w.minQP, w.maxQP, w.minQP, false)
  }

  /** One iteration of a QP loop: the QP the temporary CU is initialised with, and whether it is lossless. */
  datatype QpVisit = QpVisit(qp: int, lossless: bool)

  /** Ordinary (lossy) visits of every QP from a to b, in increasing order. */
  function LossyRun(a: int, b: int): (s: seq<QpVisit>)
    ensures |s| == if a <= b then b - a + 1 else 0
    ensures forall i :: 0 <= i < |s| ==> s[i] == QpVisit(a + i, false)
  {
    seq(if a <= b then b - a + 1 else 0, i => QpVisit(a + i, false))
  }

  /** The lossless visit that leads a bypass-enabled loop, if the loop runs at all. */
  function LosslessLead(l: QpLoop): seq<QpVisit>
  {
    if l.addLowest && l.minQP <= l.maxQP then [QpVisit(l.lowestQP, true)] else []
  }

  /** The QPs of the first (inter 2Nx2N / merge) sweep: the loop variable is restored after the lossless visit. */
  function FirstSweepSpec(l: QpLoop): seq<QpVisit>
  {
    LosslessLead(l) + LossyRun(l.lowestQP, l.maxQP)
  }

  /**
   * The QPs of the second (partitions / intra / PCM) sweep. The restore of
   * the loop variable after the lossless visit sits inside the branch that
   * runs only when the best CU is not skipped; when it is skipped the loop
   * continues from lowestQP + 1.
   */
  function SecondSweepSpec(l: QpLoop, skippedAfterLossless: bool): seq<QpVisit>
  {
    LosslessLead(l) +
    LossyRun(if l.addLowest && skippedAfterLossless then l.lowestQP + 1 else l.lowestQP, l.maxQP)
  }

  /** The first QP loop of xCompressCU, as the encoder writes it. */
  method FirstQpSweep(l: QpLoop) returns (visits: seq<QpVisit>)
    requires LoopWellFormed(l)
    ensures visits == FirstSweepSpec(l)
  {
    visits := [];
    var iQP := l.minQP;
    while iQP <= l.maxQP
      invariant l.minQP <= iQP
      invariant l.minQP <= l.maxQP ==> iQP <= l.maxQP + 1
      invariant l.minQP > l.maxQP ==> iQP == l.minQP
      invariant l.addLowest && iQP > l.minQP ==> l.minQP <= l.maxQP
      invariant visits ==
        (if l.addLowest && iQP > l.minQP then [QpVisit(l.lowestQP, true)] else []) +
        LossyRun(l.lowestQP, iQP - 1)
      decreases l.maxQP + 1 - iQP
    {
      var lossless := l.addLowest && iQP == l.minQP;
      if lossless {
        iQP := l.lowestQP;
      }
      visits := visits + [QpVisit(iQP, lossless)];
      if lossless {
        iQP := l.minQP;
      }
      iQP := iQP + 1;
    }
    if l.minQP <= l.maxQP {
      assert iQP == l.maxQP + 1;
      assert LosslessLead(l) == (if l.addLowest then [QpVisit(l.lowestQP, true)] else []);
    } else {
      assert iQP == l.minQP;
      assert LossyRun(l.lowestQP, iQP - 1) == [] == LossyRun(l.lowestQP, l.maxQP);
    }
  }

  /**
   * The second QP loop of xCompressCU, as the encoder writes it;
   * `bestSkipped(k)` is whether the best CU is a skip CU when iteration k
   * reaches the intra-block-copy and palette checks.
   */
  method SecondQpSweep(l: QpLoop, bestSkipped: nat -> bool) returns (visits: seq<QpVisit>)
    requires LoopWellFormed(l)
    ensures visits == SecondSweepSpec(l, bestSkipped(0))
  {
    visits := [];
    var iQP := l.minQP;
    var k: nat := 0;
    ghost var start := if l.addLowest && bestSkipped(0) then l.lowestQP + 1 else l.lowestQP;
    while iQP <= l.maxQP
      invariant l.minQP <= iQP
      invariant k == 0 <==> iQP == l.minQP
      invariant l.minQP <= l.maxQP ==>
        iQP <= l.maxQP + 1 || (l.addLowest && bestSkipped(0) && iQP == l.lowestQP + 1)
      invariant l.minQP > l.maxQP ==> iQP == l.minQP
      invariant l.addLowest && iQP > l.minQP ==> l.minQP <= l.maxQP
      invariant iQP > l.minQP ==> start <= iQP
      invariant visits ==
        (if l.addLowest && iQP > l.minQP then [QpVisit(l.lowestQP, true)] else []) +
        (if iQP > l.minQP then LossyRun(start, iQP - 1) else [])
      decreases l.maxQP + 1 - iQP
    {
      var lossless := l.addLowest && iQP == l.minQP;
      if lossless {
        iQP := l.lowestQP;
      }
      visits := visits + [QpVisit(iQP, lossless)];
      if !bestSkipped(k) {
        if lossless {
          iQP := l.minQP;
        }
      }
      iQP := iQP + 1;
      k := k + 1;
    }
    if l.minQP <= l.maxQP {
      assert iQP > l.minQP;
      assert LosslessLead(l) == (if l.addLowest then [QpVisit(l.lowestQP, true)] else []);
      if iQP != l.maxQP + 1 {
        assert LossyRun(start, iQP - 1) == [] == LossyRun(start, l.maxQP);
      }
    } else {
      assert iQP == l.minQP;
      assert LossyRun(start, l.maxQP) == [];
    }
  }

  /**
   * A sweep costs the lossless mode at most once, first and at the lowest
   * ordinary QP, and only when bypass is enabled; when the loop runs at all
   * with bypass enabled, it does cost it.
   */
  predicate LosslessOnlyFirst(l: QpLoop, s: seq<QpVisit>)
  {
    (forall i :: 0 <= i < |s| ==>
      (s[i].lossless <==> (i == 0 && l.addLowest)) &&
      (s[i].lossless ==> s[i].qp == l.lowestQP)) &&
    (l.addLowest && l.minQP <= l.maxQP ==> |s| > 0 && s[0] == QpVisit(l.lowestQP, true))
  }

  lemma {:induction false} LeadThenLossy(l: QpLoop, start: int)
    requires LoopWellFormed(l) && start >= l.lowestQP
    ensures LosslessOnlyFirst(l, LosslessLead(l) + LossyRun(start, l.maxQP))
  {
    var lead := LosslessLead(l);
    var run := LossyRun(start, l.maxQP);
    var s := lead + run;
    forall i | 0 <= i < |s|
      ensures (s[i].lossless <==> (i == 0 && l.addLowest)) && (s[i].lossless ==> s[i].qp == l.lowestQP)
    {
      if i < |lead| {
        assert s[i] == lead[i];
      } else {
        assert s[i] == run[i - |lead|];
      }
    }
  }

  /** Both sweeps cost the lossless mode exactly as LosslessOnlyFirst says. */
  lemma {:induction false} LosslessVisitedOnceFirst(l: QpLoop, skipped: bool)
    requires LoopWellFormed(l)
    ensures LosslessOnlyFirst(l, FirstSweepSpec(l))
    ensures LosslessOnlyFirst(l, SecondSweepSpec(l, skipped))
  {
    LeadThenLossy(l, l.lowestQP);
    LeadThenLossy(l, if l.addLowest && skipped then l.lowestQP + 1 else l.lowestQP);
  }

  /**
   * The first sweep costs every ordinary QP of the window once, in
   * increasing order: its lossy visits are exactly lowestQP..maxQP.
   */
  lemma {:induction false} FirstSweepCoversWindow(l: QpLoop, q: int)
    requires LoopWellFormed(l)
    ensures QpVisit(q, false) in FirstSweepSpec(l) <==> l.lowestQP <= q <= l.maxQP
    ensures forall i, j :: 0 <= i < j < |FirstSweepSpec(l)| ==>
      !FirstSweepSpec(l)[i].lossless && !FirstSweepSpec(l)[j].lossless ==>
      FirstSweepSpec(l)[i].qp < FirstSweepSpec(l)[j].qp
  {
    var lead := LosslessLead(l);
    var run := LossyRun(l.lowestQP, l.maxQP);
    var s := FirstSweepSpec(l);
    assert s == lead + run;
    if l.lowestQP <= q <= l.maxQP {
      assert s[|lead| + (q - l.lowestQP)] == QpVisit(q, false);
    }
    if QpVisit(q, false) in s {
      var i :| 0 <= i < |s| && s[i] == QpVisit(q, false);
      if i >= |lead| {
        assert s[i] == run[i - |lead|];
      }
    }
    forall i, j | 0 <= i < j < |s| && !s[i].lossless && !s[j].lossless
      ensures s[i].qp < s[j].qp
    {
      if i >= |lead| {
        assert s[i] == run[i - |lead|] && s[j] == run[j - |lead|];
      }
    }
  }

  /**
   * The second-sweep quirk: when transquant bypass is on and the best CU is
   * a skip CU after the lossless iteration, the lowest ordinary QP is never
   * costed by the partition / intra / PCM checks (though the first sweep
   * costed it); every other visit of the two sweeps agrees.
   */
  lemma {:induction false} SecondSweepSkipsLowestQp(l: QpLoop)
    requires LoopWellFormed(l) && l.addLowest && l.lowestQP <= l.maxQP
    ensures QpVisit(l.lowestQP, false) in FirstSweepSpec(l)
    ensures QpVisit(l.lowestQP, false) !in SecondSweepSpec(l, true)
    ensures SecondSweepSpec(l, false) == FirstSweepSpec(l)
    ensures FirstSweepSpec(l) == SecondSweepSpec(l, true)[..1] + [QpVisit(l.lowestQP, false)] +
      SecondSweepSpec(l, true)[1..]
  {
    var run := LossyRun(l.lowestQP, l.maxQP);
    var tail := LossyRun(l.lowestQP + 1, l.maxQP);
    assert FirstSweepSpec(l) == [QpVisit(l.lowestQP, true)] + run;
    assert SecondSweepSpec(l, true) == [QpVisit(l.lowestQP, true)] + tail;
    assert run == [QpVisit(l.lowestQP, false)] + tail;
    assert FirstSweepSpec(l)[1] == QpVisit(l.lowestQP, false);
  }

  /**
   * With every CU forced to bypass, each sweep costs the lossless mode
   * once and nothing else.
   */
  lemma ForcedBypassCostsOnlyLossless(w: QpRange)
    ensures var l := TqbSetup(w, true, true);
      FirstSweepSpec(l) == [QpVisit(w.minQP, true)] &&
      SecondSweepSpec(l, true) == [QpVisit(w.minQP, true)] &&
      SecondSweepSpec(l, false) == [QpVisit(w.minQP, true)]
  {
  }

  /**
   * With luma mapping or rate control (a one-QP window) and bypass enabled
   * but not forced, the first sweep costs lossless and then that one QP.
   */
  lemma {:induction false} SingleQpWindowWithBypass(cfg: WindowConfig, depth: nat, baseQP: int,
                                                    tempQP: int, lumaQpOffset: int, rcQP: int)
    requires cfg.lumaMapping || cfg.rateCtrl
    ensures var w := HeadWindow(cfg, depth, baseQP, tempQP, lumaQpOffset, rcQP);
      FirstSweepSpec(TqbSetup(w, true, false)) == [QpVisit(w.minQP, true), QpVisit(w.minQP, false)] &&
      FirstSweepSpec(TqbSetup(w, false, false)) == [QpVisit(w.minQP, false)]
  {
    var w := HeadWindow(cfg, depth, baseQP, tempQP, lumaQpOffset, rcQP);
    HeadWindowShape(cfg, depth, baseQP, tempQP, lumaQpOffset, rcQP);
    assert LossyRun(w.minQP, w.maxQP) == [QpVisit(w.minQP, false)];
  }
}
