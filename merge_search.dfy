/**
 * The skip/merge search of a 2Nx2N CU (xCheckRDCostMerge2Nx2N): every
 * valid merge candidate is costed first with a residual allowed and then
 * with the residual forced to zero, the second trial being dropped for a
 * candidate whose first trial already coded no residual. Fast merge
 * decision stops the residual pass once the best CU is a skip CU, and
 * early skip detection reports a best CU without residual that is merged
 * or has zero motion vector differences. Under the temporal
 * motion-constrained tile-set constraint, only the spatial candidates are
 * tried in the last CTU column of a tile, and a candidate whose motion
 * points outside the tile set is passed over like one that predicts from
 * the current picture.
 */
module MergeSearch {
  import opened CuTypes
  import opened BestMode

  /** What the merge search reads besides the candidates' own RD results. */
  datatype MergeSetup = MergeSetup(
    refsCurrentPic: seq<bool>,     // per valid candidate: list 0 predicts from the current picture
    tileConstraint: bool,          // temporal motion-constrained tile sets are enforced
    lastColumnInTile: bool,        // the CTU is in the last CTU column of its tile
    numSpatialCands: nat,          // how many of the valid candidates are spatial ones
    mvpOutsideTile: seq<bool>,     // per valid candidate: its motion points outside the tile set
    lossless: bool,                // the temporary CU is transquant-bypass coded
    checkSkipOnly: bool,
    fastDecisionForMerge: bool,
    useEarlySkipDetection: bool,
    selectiveSearch: bool,         // motion search method MESEARCH_SELECTIVE
    fastDeltaQp: bool,
    hasRefL0: bool,                // the slice has list-0 reference pictures
    hasRefL1: bool
  )

  /** The merge list never holds more than MRG_MAX_NUM_CANDS candidates. */
  predicate WellFormed(s: MergeSetup)
  {
    |s.refsCurrentPic| <= MRG_MAX_NUM_CANDS &&
    s.numSpatialCands <= |s.refsCurrentPic| && |s.mvpOutsideTile| == |s.refsCurrentPic|
  }

  /** The candidates tried: only the spatial ones in the last CTU column of a constrained tile. */
  function NumCands(s: MergeSetup): nat
  {
    if s.tileConstraint && s.lastColumnInTile then s.numSpatialCands else |s.refsCurrentPic|
  }

  /**
   * A candidate passed over without an RD trial: it predicts from the
   * current picture, or the tile constraint rejects its motion.
   */
  predicate Excluded(s: MergeSetup, c: nat)
  {
    (c < |s.refsCurrentPic| && s.refsCurrentPic[c]) ||
    (s.tileConstraint && c < |s.mvpOutsideTile| && s.mvpOutsideTile[c])
  }

  /** The first pass run: the zero-residual pass alone when only skip is checked, unless lossless. */
  function FirstPass(s: MergeSetup): nat
  {
    if s.lossless then 0 else if s.checkSkipOnly then 1 else 0
  }

  /** One past the last pass: a lossless CU never runs the zero-residual pass. */
  function PassEnd(s: MergeSetup): nat
  {
    if s.lossless then 1 else 2
  }

  /** One RD trial: the pass (0: residual allowed, 1: residual forced to zero) and the candidate index. */
  datatype MergeTrial = MergeTrial(noResidual: nat, cand: nat)

  /** The RD result of costing candidate `cand` in pass `noResidual` (motion compensation and residual coding, not modelled). */
  type MergeOracle = (nat, nat) -> Candidate

  /**
   * The temporary CU a trial leaves: a merged inter 2Nx2N CU, skipped
   * exactly when it has no residual; a zero-residual pass codes none.
   */
  function Temp(s: MergeSetup, trial: MergeOracle, t: MergeTrial): (c: Candidate)
    ensures c.part == Size2Nx2N && c.mode == ModeInter && c.merge && c.lossless == s.lossless
    ensures c.skipped <==> !c.rootCbf
    ensures t.noResidual != 0 ==> !c.rootCbf
  {
    var r := trial(t.noResidual, t.cand);
    var cbf := t.noResidual == 0 && r.rootCbf;
    r.(part := Size2Nx2N, mode := ModeInter, merge := true, rootCbf := cbf, skipped := !cbf,
       lossless := s.lossless)
  }

  /** The temporary CUs of a sequence of trials, in order. */
  function Temps(s: MergeSetup, trial: MergeOracle, trace: seq<MergeTrial>): (r: seq<Candidate>)
    ensures |r| == |trace|
    decreases |trace|
  {
    if |trace| == 0 then []
    else Temps(s, trial, trace[..|trace| - 1]) + [Temp(s, trial, trace[|trace| - 1])]
  }

  /** A trial the search may run at all: a pass of this CU, an existing candidate not predicting from the current picture. */
  predicate Basic(s: MergeSetup, t: MergeTrial)
  {
    FirstPass(s) <= t.noResidual < PassEnd(s) &&
    t.cand < NumCands(s) && !Excluded(s, t.cand)
  }

  /** Candidate `c` was marked: its residual-allowed trial ran and coded no residual. */
  predicate Marked(s: MergeSetup, trial: MergeOracle, trace: seq<MergeTrial>, c: nat)
  {
    MergeTrial(0, c) in trace && !Temp(s, trial, MergeTrial(0, c)).rootCbf
  }

  /** Trials are run pass by pass, candidates in increasing order within a pass. */
  predicate Before(a: MergeTrial, b: MergeTrial)
  {
    a.noResidual < b.noResidual || (a.noResidual == b.noResidual && a.cand < b.cand)
  }

  /** The number of leading residual-allowed trials of a trace run pass by pass. */
  function Pass0Len(trace: seq<MergeTrial>): (k: nat)
    ensures k <= |trace|
    decreases |trace|
  {
    if |trace| == 0 then 0
    else if trace[|trace| - 1].noResidual == 0 then |trace|
    else Pass0Len(trace[..|trace| - 1])
  }

  /** The sum of absolute MVD components of partition 0 over the lists that have reference pictures. */
  function MvdSum(s: MergeSetup, best: Candidate): nat
  {
    (if s.hasRefL0 then best.mvdL0 else 0) + (if s.hasRefL1 then best.mvdL1 else 0)
  }

  /** The early skip condition after the residual-allowed pass: no residual, and merged or no motion vector difference. */
  predicate EarlySkipHolds(s: MergeSetup, best: Candidate)
  {
    !best.rootCbf && (best.merge || (!s.selectiveSearch && MvdSum(s, best) == 0))
  }

  lemma TrialSnoc(s: MergeSetup, trial: MergeOracle, best: Candidate, trace: seq<MergeTrial>, t: MergeTrial)
    ensures Temps(s, trial, trace + [t]) == Temps(s, trial, trace) + [Temp(s, trial, t)]
    ensures SweepBest(best, Temps(s, trial, trace + [t])) ==
            Keep(SweepBest(best, Temps(s, trial, trace)), Temp(s, trial, t))
    ensures Pass0Len(trace + [t]) == if t.noResidual == 0 then |trace| + 1 else Pass0Len(trace)
  {
    assert (trace + [t])[..|trace|] == trace;
    var ts := Temps(s, trial, trace) + [Temp(s, trial, t)];
    assert ts[..|ts| - 1] == Temps(s, trial, trace);
  }

  lemma PrefixOfSnoc(trace: seq<MergeTrial>, t: MergeTrial, i: nat)
    requires i <= |trace|
    ensures (trace + [t])[..i] == trace[..i]
  {
  }

  /** The best CU after the first `i` trials. */
  function BestBefore(s: MergeSetup, trial: MergeOracle, best: Candidate, trace: seq<MergeTrial>, i: nat): Candidate
    requires i <= |trace|
  {
    SweepBest(best, Temps(s, trial, trace[..i]))
  }

  /** Trial `t` comes before position (`p`, `c`) of the two nested loops. */
  predicate Done(p: nat, c: nat, t: MergeTrial)
  {
    t.noResidual < p || (t.noResidual == p && t.cand < c)
  }

  /**
   * The state of the search at pass `p`, candidate `c`: the merge-candidate
   * marks `buf`, the trials run, the best CU, the fast-decision flag, and
   * the length of and best CU after the residual-allowed pass once it is over.
   * Contracts state it as `SearchInv(..) == true`, which keeps each use a
   * single proof obligation rather than one per conjunct.
   */
  ghost predicate SearchInv(s: MergeSetup, trial: MergeOracle, best: Candidate, p: nat, c: nat,
                            buf: seq<int>, trace: seq<MergeTrial>, newBest: Candidate,
                            bestIsSkip: bool, k0: nat, best0: Candidate)
  {
    FirstPass(s) <= p <= PassEnd(s) && c <= NumCands(s) <= |buf| &&
    newBest == SweepBest(best, Temps(s, trial, trace)) &&
    TraceInv(s, trial, p, c, buf, trace) &&
    Pass0Inv(s, trial, best, p, trace, k0, best0) &&
    SkipInv(s, trial, best, p, c, trace, newBest, bestIsSkip, best0)
  }

  /** Which trials have run, in which order, and which candidates are marked. */
  ghost predicate TraceInv(s: MergeSetup, trial: MergeOracle, p: nat, c: nat, buf: seq<int>, trace: seq<MergeTrial>)
  {
    NumCands(s) <= |buf| &&
    (forall i :: 0 <= i < |trace| ==> Done(p, c, trace[i])) &&
    (forall i, j :: 0 <= i < j < |trace| ==> Before(trace[i], trace[j])) &&
    (forall t {:trigger t in trace} :: t in trace ==> Basic(s, t) && (t.noResidual == 1 ==> !Marked(s, trial, trace, t.cand))) &&
    (forall c' :: 0 <= c' < NumCands(s) ==> (buf[c'] == 1 <==> Marked(s, trial, trace, c'))) &&
    (forall t {:trigger Basic(s, t)} :: Basic(s, t) && t.noResidual == 1 && !Marked(s, trial, trace, t.cand) && Done(p, c, t) ==>
       t in trace)
  }

  /** The residual-allowed pass: its length, and the best CU after it once it is over. */
  ghost predicate Pass0Inv(s: MergeSetup, trial: MergeOracle, best: Candidate, p: nat,
                           trace: seq<MergeTrial>, k0: nat, best0: Candidate)
  {
    (p == 0 ==> Pass0Len(trace) == |trace|) &&
    (p >= 1 ==> k0 == Pass0Len(trace) && best0 == SweepBest(best, Temps(s, trial, trace[..k0])))
  }

  /** The fast merge decision flag, and the residual trials it left out. */
  ghost predicate SkipInv(s: MergeSetup, trial: MergeOracle, best: Candidate, p: nat, c: nat,
                          trace: seq<MergeTrial>, newBest: Candidate, bestIsSkip: bool, best0: Candidate)
  {
    (bestIsSkip ==> s.fastDecisionForMerge) &&
    (p == 0 && bestIsSkip ==> !newBest.rootCbf) &&
    (p == 0 && s.fastDecisionForMerge && |trace| > 0 ==> (bestIsSkip <==> !newBest.rootCbf)) &&
    (p == 0 ==> forall t {:trigger Basic(s, t)} :: Basic(s, t) && t.noResidual == 0 && t.cand < c && t !in trace ==> bestIsSkip) &&
    (p >= 1 ==> forall t {:trigger Basic(s, t)} :: Basic(s, t) && t.noResidual == 0 && t !in trace ==>
       s.fastDecisionForMerge && !best0.rootCbf) &&
    (s.fastDecisionForMerge ==> forall i {:trigger BestBefore(s, trial, best, trace, i)} ::
       0 < i < |trace| && trace[i].noResidual == 0 ==> BestBefore(s, trial, best, trace, i).rootCbf)
  }

  /** A candidate passed over (marked, fast decision, or current-picture reference) keeps the invariant. */
  lemma {:induction false} SkipStep(s: MergeSetup, trial: MergeOracle, best: Candidate, p: nat, c: nat,
                                    buf: seq<int>, trace: seq<MergeTrial>, newBest: Candidate,
                                    bestIsSkip: bool, k0: nat, best0: Candidate)
    requires SearchInv(s, trial, best, p, c, buf, trace, newBest, bestIsSkip, k0, best0) == true
    requires p < PassEnd(s) && c < NumCands(s)
    requires (p == 1 && buf[c] == 1) || (bestIsSkip && p == 0) || Excluded(s, c)
    ensures SearchInv(s, trial, best, p, c + 1, buf, trace, newBest, bestIsSkip, k0, best0) == true
  {
    forall t | Basic(s, t) && t.noResidual == 1 && !Marked(s, trial, trace, t.cand) && Done(p, c + 1, t)
      ensures t in trace
    {
      if t.noResidual != p || t.cand != c {
        assert Done(p, c, t);
      }
    }
  }

  /** Running trial (`p`, `c`) keeps the trace invariant. */
  lemma {:induction false} TrialTrace(s: MergeSetup, trial: MergeOracle, p: nat, c: nat,
                                      buf: seq<int>, trace: seq<MergeTrial>)
    requires TraceInv(s, trial, p, c, buf, trace)
    requires FirstPass(s) <= p < PassEnd(s) && c < NumCands(s)
    requires !(p == 1 && buf[c] == 1) && !Excluded(s, c)
    ensures MergeTrial(p, c) !in trace
    ensures TraceInv(s, trial, p, c + 1,
                     if p == 0 && !Temp(s, trial, MergeTrial(p, c)).rootCbf then buf[c := 1] else buf,
                     trace + [MergeTrial(p, c)])
  {
    var t := MergeTrial(p, c);
    var temp := Temp(s, trial, t);
    var buf' := if p == 0 && !temp.rootCbf then buf[c := 1] else buf;
    var trace' := trace + [t];
    forall i | 0 <= i < |trace|
      ensures trace[i] != t
    {
      assert Done(p, c, trace[i]);
    }
    // marks change only for candidate c, and only in the residual-allowed pass
    assert forall c' :: c' != c || p != 0 ==>
      Marked(s, trial, trace', c') == Marked(s, trial, trace, c');
    assert p == 0 ==> (Marked(s, trial, trace', c) <==> !temp.rootCbf);
    forall i | 0 <= i < |trace'|
      ensures Done(p, c + 1, trace'[i])
    {
      if i < |trace| {
        assert Done(p, c, trace[i]);
      }
    }
    forall i, j | 0 <= i < j < |trace'|
      ensures Before(trace'[i], trace'[j])
    {
      if j == |trace| {
        assert Done(p, c, trace[i]);
      }
    }
    forall t' | t' in trace'
      ensures Basic(s, t') && (t'.noResidual == 1 ==> !Marked(s, trial, trace', t'.cand))
    {
      if t' == t {
        if p == 1 {
          assert !Marked(s, trial, trace, c);
        }
      } else {
        assert t' in trace;
        forall i | 0 <= i < |trace|
          ensures Done(p, c, trace[i])
        {
        }
      }
    }
    forall c' | 0 <= c' < NumCands(s)
      ensures buf'[c'] == 1 <==> Marked(s, trial, trace', c')
    {
      if c' == c && p == 0 {
        forall i | 0 <= i < |trace|
          ensures trace[i] != MergeTrial(0, c)
        {
          assert Done(p, c, trace[i]);
        }
      }
    }
    forall t' | Basic(s, t') && t'.noResidual == 1 && !Marked(s, trial, trace', t'.cand) && Done(p, c + 1, t')
      ensures t' in trace'
    {
      if t' != t {
        assert Done(p, c, t');
      }
    }
  }

  /** Running trial (`p`, `c`) keeps the fast-decision invariant. */
  lemma {:induction false} TrialSkip(s: MergeSetup, trial: MergeOracle, best: Candidate, p: nat, c: nat,
                                     trace: seq<MergeTrial>, newBest: Candidate, bestIsSkip: bool, best0: Candidate)
    requires SkipInv(s, trial, best, p, c, trace, newBest, bestIsSkip, best0)
    requires newBest == SweepBest(best, Temps(s, trial, trace))
    requires MergeTrial(p, c) !in trace
    requires !(bestIsSkip && p == 0)
    ensures var t := MergeTrial(p, c);
      var newBest' := Keep(newBest, Temp(s, trial, t));
      SkipInv(s, trial, best, p, c + 1, trace + [t], newBest',
              if s.fastDecisionForMerge && !bestIsSkip then !newBest'.rootCbf else bestIsSkip, best0)
  {
    var t := MergeTrial(p, c);
    var newBest' := Keep(newBest, Temp(s, trial, t));
    var trace' := trace + [t];
    var bestIsSkip' := if s.fastDecisionForMerge && !bestIsSkip then !newBest'.rootCbf else bestIsSkip;
    forall i | 0 < i < |trace'| && trace'[i].noResidual == 0 && s.fastDecisionForMerge
      ensures BestBefore(s, trial, best, trace', i).rootCbf
    {
      PrefixOfSnoc(trace, t, i);
      if i < |trace| {
        assert trace'[i] == trace[i];
        assert BestBefore(s, trial, best, trace, i).rootCbf;
      } else {
        assert trace[..i] == trace;
        assert p == 0 && |trace| > 0;
        assert newBest.rootCbf;
      }
    }
  }

  /** Running trial (`p`, `c`) moves the state to (`buf'`, `trace'`, `newBest'`, `bestIsSkip'`) and keeps the invariant. */
  lemma {:induction false} TrialStep(s: MergeSetup, trial: MergeOracle, best: Candidate, p: nat, c: nat,
                                     buf: seq<int>, trace: seq<MergeTrial>, newBest: Candidate,
                                     bestIsSkip: bool, k0: nat, best0: Candidate,
                                     buf': seq<int>, trace': seq<MergeTrial>, newBest': Candidate,
                                     bestIsSkip': bool)
    requires SearchInv(s, trial, best, p, c, buf, trace, newBest, bestIsSkip, k0, best0) == true
    requires p < PassEnd(s) && c < NumCands(s)
    requires !(p == 1 && buf[c] == 1) && !(bestIsSkip && p == 0) && !Excluded(s, c)
    requires trace' == trace + [MergeTrial(p, c)]
    requires buf' == if p == 0 && !Temp(s, trial, MergeTrial(p, c)).rootCbf then buf[c := 1] else buf
    requires newBest' == Keep(newBest, Temp(s, trial, MergeTrial(p, c)))
    requires bestIsSkip' == if s.fastDecisionForMerge && !bestIsSkip then !newBest'.rootCbf else bestIsSkip
    ensures SearchInv(s, trial, best, p, c + 1, buf', trace', newBest', bestIsSkip', k0, best0) == true
  {
    var t := MergeTrial(p, c);
    TrialSnoc(s, trial, best, trace, t);
    TrialTrace(s, trial, p, c, buf, trace);
    TrialSkip(s, trial, best, p, c, trace, newBest, bestIsSkip, best0);
    if p >= 1 {
      PrefixOfSnoc(trace, t, k0);
    }
  }

  /**
   * The end of a pass (at candidate `c`, the number of candidates): after
   * the residual-allowed pass its length and best CU are recorded as `k0'`
   * and `best0'`.
   */
  lemma {:induction false} PassStep(s: MergeSetup, trial: MergeOracle, best: Candidate, p: nat, c: nat,
                                    buf: seq<int>, trace: seq<MergeTrial>, newBest: Candidate,
                                    bestIsSkip: bool, k0: nat, best0: Candidate, k0': nat, best0': Candidate)
    requires SearchInv(s, trial, best, p, c, buf, trace, newBest, bestIsSkip, k0, best0) == true
    requires p < PassEnd(s) && c == NumCands(s)
    requires k0' == (if p == 0 then |trace| else k0)
    requires best0' == (if p == 0 then newBest else best0)
    ensures SearchInv(s, trial, best, p + 1, 0, buf, trace, newBest, bestIsSkip, k0', best0') == true
  {
    if p == 0 {
      assert trace[..|trace|] == trace;
    }
  }

  /** Once both loops are over, the invariant gives the search's outcome. */
  lemma {:induction false} SearchDone(s: MergeSetup, trial: MergeOracle, best: Candidate,
                                      buf: seq<int>, trace: seq<MergeTrial>, newBest: Candidate,
                                      bestIsSkip: bool, k0: nat, best0: Candidate)
    requires SearchInv(s, trial, best, PassEnd(s), 0, buf, trace, newBest, bestIsSkip, k0, best0) == true
    ensures newBest == SweepBest(best, Temps(s, trial, trace))
    ensures forall i, j :: 0 <= i < j < |trace| ==> Before(trace[i], trace[j])
    ensures forall t {:trigger t in trace} :: t in trace ==>
      Basic(s, t) && (t.noResidual == 1 ==> !Marked(s, trial, trace, t.cand))
    ensures forall t {:trigger Basic(s, t)} :: (Basic(s, t) && t.noResidual == 1 && !Marked(s, trial, trace, t.cand)) ==> t in trace
    ensures best0 == SweepBest(best, Temps(s, trial, trace[..Pass0Len(trace)]))
    ensures forall t {:trigger Basic(s, t)} :: (Basic(s, t) && t.noResidual == 0 && t !in trace) ==>
      s.fastDecisionForMerge && !best0.rootCbf
    ensures s.fastDecisionForMerge ==>
      forall i {:trigger BestBefore(s, trial, best, trace, i)} ::
        (0 < i < |trace| && trace[i].noResidual == 0) ==> BestBefore(s, trial, best, trace, i).rootCbf
  {
    forall t | Basic(s, t) && t.noResidual == 1 && !Marked(s, trial, trace, t.cand)
      ensures t in trace
    {
      assert Done(PassEnd(s), 0, t);
    }
  }

  // ---------------------------------------------------------------------
  // The search as a function of its inputs
  // ---------------------------------------------------------------------

  /** The loop state: the merge-candidate marks, the trials run, the best CU, and the fast-decision flag. */
  datatype SearchState = SearchState(buf: seq<int>, trace: seq<MergeTrial>, best: Candidate, bestIsSkip: bool)

  /** Before the loops: no candidate marked, no trial run, the caller's best CU. */
  function InitialState(best: Candidate): SearchState
  {
    SearchState(seq(MRG_MAX_NUM_CANDS, _ => 0), [], best, false)
  }

  /**
   * Candidate `c` in pass `p`: it is costed unless it is marked (in the
   * zero-residual pass), fast merge decision has found a skip CU (in the
   * residual pass), or it predicts from the current picture. A residual
   * trial without residual marks the candidate.
   */
  function Step(s: MergeSetup, trial: MergeOracle, st: SearchState, p: nat, c: nat): (r: SearchState)
    requires c < NumCands(s) <= |st.buf|
    ensures |r.buf| == |st.buf|
  {
    if !(p == 1 && st.buf[c] == 1) && !(st.bestIsSkip && p == 0) && !Excluded(s, c) then
      var temp := Temp(s, trial, MergeTrial(p, c));
      var newBest := Keep(st.best, temp);
      SearchState(if p == 0 && !temp.rootCbf then st.buf[c := 1] else st.buf,
                  st.trace + [MergeTrial(p, c)], newBest,
                  if s.fastDecisionForMerge && !st.bestIsSkip then !newBest.rootCbf else st.bestIsSkip)
    else st
  }

  /** Pass `p` over the first `c` candidates. */
  function RunPass(s: MergeSetup, trial: MergeOracle, st: SearchState, p: nat, c: nat): (r: SearchState)
    requires c <= NumCands(s) <= |st.buf|
    ensures |r.buf| == |st.buf|
    decreases c
  {
    if c == 0 then st else Step(s, trial, RunPass(s, trial, st, p, c - 1), p, c - 1)
  }

  /** Passes `p` up to the last one, each over every candidate. */
  function RunPasses(s: MergeSetup, trial: MergeOracle, st: SearchState, p: nat): SearchState
    requires NumCands(s) <= |st.buf|
    decreases PassEnd(s) - p
  {
    if p >= PassEnd(s) then st
    else RunPasses(s, trial, RunPass(s, trial, st, p, NumCands(s)), p + 1)
  }

  /** The state the search ends in (outside fast delta-QP mode). */
  function Search(s: MergeSetup, trial: MergeOracle, best: Candidate): SearchState
    requires WellFormed(s)
  {
    RunPasses(s, trial, InitialState(best), FirstPass(s))
  }

  /** One candidate keeps the invariant. */
  lemma StepKeeps(s: MergeSetup, trial: MergeOracle, best: Candidate, st: SearchState, r: SearchState,
                  p: nat, c: nat, c': nat, k0: nat, best0: Candidate)
    requires SearchInv(s, trial, best, p, c, st.buf, st.trace, st.best, st.bestIsSkip, k0, best0) == true
    requires p < PassEnd(s) && c < NumCands(s)
    requires r == Step(s, trial, st, p, c) && c' == c + 1
    ensures SearchInv(s, trial, best, p, c', r.buf, r.trace, r.best, r.bestIsSkip, k0, best0) == true
  {
    if !(p == 1 && st.buf[c] == 1) && !(st.bestIsSkip && p == 0) && !Excluded(s, c) {
      TrialStep(s, trial, best, p, c, st.buf, st.trace, st.best, st.bestIsSkip, k0, best0,
                r.buf, r.trace, r.best, r.bestIsSkip);
    } else {
      SkipStep(s, trial, best, p, c, st.buf, st.trace, st.best, st.bestIsSkip, k0, best0);
    }
  }

  /** The state once the residual-allowed pass is over (when it is the first pass). */
  function Pass0State(s: MergeSetup, trial: MergeOracle, best: Candidate): SearchState
    requires WellFormed(s)
  {
    RunPass(s, trial, InitialState(best), 0, NumCands(s))
  }

  /** The best CU once the residual-allowed pass is over. */
  function Pass0Best(s: MergeSetup, trial: MergeOracle, best: Candidate): Candidate
    requires WellFormed(s)
  {
    Pass0State(s, trial, best).best
  }

  /** A pass keeps the invariant, candidate by candidate. */
  lemma {:induction false} RunPassKeeps(s: MergeSetup, trial: MergeOracle, best: Candidate, st: SearchState,
                                        p: nat, c: nat, k0: nat, best0: Candidate)
    requires SearchInv(s, trial, best, p, 0, st.buf, st.trace, st.best, st.bestIsSkip, k0, best0) == true
    requires p < PassEnd(s) && c <= NumCands(s)
    ensures var r := RunPass(s, trial, st, p, c);
      SearchInv(s, trial, best, p, c, r.buf, r.trace, r.best, r.bestIsSkip, k0, best0) == true
    decreases c
  {
    if c > 0 {
      RunPassKeeps(s, trial, best, st, p, c - 1, k0, best0);
      StepKeeps(s, trial, best, RunPass(s, trial, st, p, c - 1), RunPass(s, trial, st, p, c), p, c - 1, c, k0, best0);
    }
  }

  /** The invariant holds before the first pass. */
  lemma InitialInv(s: MergeSetup, trial: MergeOracle, best: Candidate)
    requires WellFormed(s)
    ensures var st := InitialState(best);
      SearchInv(s, trial, best, FirstPass(s), 0, st.buf, st.trace, st.best, st.bestIsSkip, 0, best) == true
  {
  }

  /** The invariant holds once the first pass is over. */
  lemma FirstPassInv(s: MergeSetup, trial: MergeOracle, best: Candidate)
    requires WellFormed(s)
    ensures var r := RunPass(s, trial, InitialState(best), FirstPass(s), NumCands(s));
      SearchInv(s, trial, best, FirstPass(s) + 1, 0, r.buf, r.trace, r.best, r.bestIsSkip,
                if FirstPass(s) == 0 then |r.trace| else 0,
                if FirstPass(s) == 0 then r.best else best) == true
  {
    var st0 := InitialState(best);
    var p0 := FirstPass(s);
    var n := NumCands(s);
    var st1 := RunPass(s, trial, st0, p0, n);
    InitialInv(s, trial, best);
    RunPassKeeps(s, trial, best, st0, p0, n, 0, best);
    PassStep(s, trial, best, p0, n, st1.buf, st1.trace, st1.best, st1.bestIsSkip, 0, best,
             if p0 == 0 then |st1.trace| else 0, if p0 == 0 then st1.best else best);
  }

  /** The search is the first pass followed by the remaining ones. */
  lemma SearchUnfolds(s: MergeSetup, trial: MergeOracle, best: Candidate)
    requires WellFormed(s)
    ensures var st1 := RunPass(s, trial, InitialState(best), FirstPass(s), NumCands(s));
      Search(s, trial, best) ==
        if FirstPass(s) + 1 < PassEnd(s) then RunPass(s, trial, st1, FirstPass(s) + 1, NumCands(s)) else st1
  {
    var st1 := RunPass(s, trial, InitialState(best), FirstPass(s), NumCands(s));
    assert Search(s, trial, best) == RunPasses(s, trial, st1, FirstPass(s) + 1);
    if FirstPass(s) + 1 < PassEnd(s) {
      var st2 := RunPass(s, trial, st1, FirstPass(s) + 1, NumCands(s));
      assert RunPasses(s, trial, st1, FirstPass(s) + 1) == RunPasses(s, trial, st2, FirstPass(s) + 2) == st2;
    }
  }

  /** The passes after the first keep the invariant. */
  lemma LaterPassesInv(s: MergeSetup, trial: MergeOracle, best: Candidate, st1: SearchState, k1: nat, b1: Candidate)
    requires WellFormed(s)
    requires SearchInv(s, trial, best, FirstPass(s) + 1, 0, st1.buf, st1.trace, st1.best, st1.bestIsSkip, k1, b1) == true
    ensures var r := if FirstPass(s) + 1 < PassEnd(s) then RunPass(s, trial, st1, FirstPass(s) + 1, NumCands(s)) else st1;
      SearchInv(s, trial, best, PassEnd(s), 0, r.buf, r.trace, r.best, r.bestIsSkip, k1, b1) == true
  {
    var p1 := FirstPass(s) + 1;
    if p1 < PassEnd(s) {
      var n := NumCands(s);
      var st2 := RunPass(s, trial, st1, p1, n);
      RunPassKeeps(s, trial, best, st1, p1, n, k1, b1);
      PassStep(s, trial, best, p1, n, st2.buf, st2.trace, st2.best, st2.bestIsSkip, k1, b1, k1, b1);
    }
  }

  /** The invariant holds once both passes are over. */
  lemma SearchEndInv(s: MergeSetup, trial: MergeOracle, best: Candidate)
    requires WellFormed(s)
    ensures var r := Search(s, trial, best);
      SearchInv(s, trial, best, PassEnd(s), 0, r.buf, r.trace, r.best, r.bestIsSkip,
                if FirstPass(s) == 0 then |Pass0State(s, trial, best).trace| else 0,
                if FirstPass(s) == 0 then Pass0Best(s, trial, best) else best) == true
  {
    var st1 := RunPass(s, trial, InitialState(best), FirstPass(s), NumCands(s));
    FirstPassInv(s, trial, best);
    SearchUnfolds(s, trial, best);
    LaterPassesInv(s, trial, best, st1, if FirstPass(s) == 0 then |st1.trace| else 0,
                   if FirstPass(s) == 0 then st1.best else best);
  }

  /**
   * What the search guarantees, stated about its final trace `trace` and
   * best CU `newBest`: see CheckMerge2Nx2N.
   */
  lemma {:induction false} SearchFacts(s: MergeSetup, trial: MergeOracle, best: Candidate,
                                       trace: seq<MergeTrial>, newBest: Candidate)
    requires WellFormed(s)
    requires trace == Search(s, trial, best).trace && newBest == Search(s, trial, best).best
    ensures newBest == SweepBest(best, Temps(s, trial, trace))
    ensures forall i, j :: 0 <= i < j < |trace| ==> Before(trace[i], trace[j])
    ensures forall t {:trigger t in trace} :: t in trace ==>
      Basic(s, t) && (t.noResidual == 1 ==> !Marked(s, trial, trace, t.cand))
    ensures forall t {:trigger Basic(s, t)} ::
      (Basic(s, t) && t.noResidual == 1 && !Marked(s, trial, trace, t.cand)) ==> t in trace
    ensures forall t {:trigger Basic(s, t)} :: (Basic(s, t) && t.noResidual == 0 && t !in trace) ==>
      s.fastDecisionForMerge && !SweepBest(best, Temps(s, trial, trace[..Pass0Len(trace)])).rootCbf
    ensures s.fastDecisionForMerge ==>
      forall i {:trigger BestBefore(s, trial, best, trace, i)} ::
        (0 < i < |trace| && trace[i].noResidual == 0) ==> BestBefore(s, trial, best, trace, i).rootCbf
    ensures FirstPass(s) == 0 ==>
      SweepBest(best, Temps(s, trial, trace[..Pass0Len(trace)])) == Pass0Best(s, trial, best)
  {
    SearchEndInv(s, trial, best);
    var k0 := if FirstPass(s) == 0 then |Pass0State(s, trial, best).trace| else 0;
    var best0 := if FirstPass(s) == 0 then Pass0Best(s, trial, best) else best;
    var r := Search(s, trial, best);
    SearchDone(s, trial, best, r.buf, r.trace, r.best, r.bestIsSkip, k0, best0);
  }

  /** The early skip test of the source, nested as it is written there. */
  method DetectEarlySkip(s: MergeSetup, best: Candidate) returns (skip: bool)
    ensures skip == EarlySkipHolds(s, best)
  {
    skip := false;
    if !best.rootCbf {
      if best.merge {
        skip := true;
      } else if !s.selectiveSearch {
        var absoluteMv := 0;
        if s.hasRefL0 {
          absoluteMv := absoluteMv + best.mvdL0;
        }
        if s.hasRefL1 {
          absoluteMv := absoluteMv + best.mvdL1;
        }
        if absoluteMv == 0 {
          skip := true;
        }
      }
    }
  }

  /** One pass over the merge candidates: the inner loop of the search. */
  method MergePass(s: MergeSetup, trial: MergeOracle, mergeCandBuffer: array<int>, numValidMergeCand: nat,
                   noResidual: nat, trace0: seq<MergeTrial>, best0: Candidate, bestIsSkip0: bool)
    returns (trace: seq<MergeTrial>, newBest: Candidate, bestIsSkip: bool)
    requires WellFormed(s) && mergeCandBuffer.Length == MRG_MAX_NUM_CANDS
    requires numValidMergeCand == NumCands(s)
    modifies mergeCandBuffer
    ensures SearchState(mergeCandBuffer[..], trace, newBest, bestIsSkip) ==
      RunPass(s, trial, SearchState(old(mergeCandBuffer[..]), trace0, best0, bestIsSkip0), noResidual, NumCands(s))
  {
    ghost var start := SearchState(mergeCandBuffer[..], trace0, best0, bestIsSkip0);
    trace, newBest, bestIsSkip := trace0, best0, bestIsSkip0;
    var c := 0;
    while c < numValidMergeCand
      invariant c <= numValidMergeCand
      invariant SearchState(mergeCandBuffer[..], trace, newBest, bestIsSkip) == RunPass(s, trial, start, noResidual, c)
    {
      ghost var before := SearchState(mergeCandBuffer[..], trace, newBest, bestIsSkip);
      if !(noResidual == 1 && mergeCandBuffer[c] == 1) && !(bestIsSkip && noResidual == 0) &&
         !Excluded(s, c) {
        var temp := Temp(s, trial, MergeTrial(noResidual, c));
        if noResidual == 0 && !temp.rootCbf {
          // no residual when one was allowed: do not retry with the residual forced to zero
          mergeCandBuffer[c] := 1;
        }
        newBest := Keep(newBest, temp);
        trace := trace + [MergeTrial(noResidual, c)];
        if s.fastDecisionForMerge && !bestIsSkip {
          bestIsSkip := !newBest.rootCbf;
        }
      }
      assert SearchState(mergeCandBuffer[..], trace, newBest, bestIsSkip) == Step(s, trial, before, noResidual, c);
      c := c + 1;
    }
  }

  /**
   * xCheckRDCostMerge2Nx2N on a CU whose best so far is `best`; `earlyIn`
   * is the caller's early-skip flag. Returns the new best CU, the flag,
   * and the trials run, in order.
   */
  method CheckMerge2Nx2N(s: MergeSetup, trial: MergeOracle, best: Candidate, earlyIn: bool)
    returns (newBest: Candidate, early: bool, trace: seq<MergeTrial>)
    requires WellFormed(s)
    // fast delta-QP mode never checks merge
    ensures s.fastDeltaQp ==> trace == [] && newBest == best && early == earlyIn
    // otherwise the trials and the best CU are those of the search (see SearchFacts)
    ensures !s.fastDeltaQp ==> trace == Search(s, trial, best).trace && newBest == Search(s, trial, best).best
    // early skip is judged on the best CU after the residual-allowed pass
    ensures !s.fastDeltaQp ==>
      (early == (earlyIn || (s.useEarlySkipDetection && FirstPass(s) == 0 && EarlySkipHolds(s, Pass0Best(s, trial, best)))))
  {
    newBest, early, trace := best, earlyIn, [];
    if s.fastDeltaQp {
      return;   // merge is never checked in fast delta-QP mode
    }
    var numValidMergeCand := |s.refsCurrentPic|;
    if s.tileConstraint && s.lastColumnInTile {
      numValidMergeCand := s.numSpatialCands;   // only spatial candidates in the last column of a tile
    }
    var mergeCandBuffer := new int[MRG_MAX_NUM_CANDS](_ => 0);
    var bestIsSkip := false;
    var iteration: nat;
    var iterationBegin: nat := if s.checkSkipOnly then 1 else 0;
    if s.lossless {
      iteration := 1;
      iterationBegin := 0;
    } else {
      iteration := 2;
    }
    ghost var pass0Best := best;
    assert mergeCandBuffer[..] == InitialState(best).buf;
    var noResidual := iterationBegin;
    while noResidual < iteration
      invariant iterationBegin == FirstPass(s) && iteration == PassEnd(s)
      invariant iterationBegin <= noResidual <= iteration
      invariant mergeCandBuffer.Length == MRG_MAX_NUM_CANDS && numValidMergeCand == NumCands(s)
      invariant RunPasses(s, trial, SearchState(mergeCandBuffer[..], trace, newBest, bestIsSkip), noResidual) ==
        Search(s, trial, best)
      invariant noResidual == FirstPass(s) ==>
        SearchState(mergeCandBuffer[..], trace, newBest, bestIsSkip) == InitialState(best)
      invariant FirstPass(s) == 0 && noResidual >= 1 ==>
        pass0Best == Pass0Best(s, trial, best)
      invariant early == (earlyIn || (s.useEarlySkipDetection && FirstPass(s) == 0 && noResidual >= 1 &&
        EarlySkipHolds(s, pass0Best)))
      decreases iteration - noResidual
    {
      trace, newBest, bestIsSkip := MergePass(s, trial, mergeCandBuffer, numValidMergeCand, noResidual, trace, newBest, bestIsSkip);
      if noResidual == 0 {
        pass0Best := newBest;
        if s.useEarlySkipDetection {
          var skip := DetectEarlySkip(s, newBest);
          if skip {
            early := true;
          }
        }
      }
      noResidual := noResidual + 1;
    }
  }
}
