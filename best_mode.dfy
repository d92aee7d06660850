/**
 * The best/temp tracker of the CU search (xCheckBestMode). Every RD check
 * fills a temporary CU; when its cost is strictly below that of the best CU
 * so far, the two CU objects swap roles, and with them the per-depth
 * prediction and reconstruction buffers, and the entropy-coder context of
 * the temporary best is stored as the next best.
 */
module BestMode {
  import opened CuTypes

  /**
   * The choice one xCheckBestMode call makes: the temporary candidate
   * replaces the best one only when it is strictly cheaper, so on a tie the
   * earlier candidate stays.
   */
  function Keep(best: Candidate, temp: Candidate): (r: Candidate)
    ensures r == best || r == temp
    ensures LessEq(r.cost, best.cost) && LessEq(r.cost, temp.cost)
    ensures r == temp && r != best ==> Less(temp.cost, best.cost)
  {
    if Less(temp.cost, best.cost) then temp else best
  }

  /** The best candidate after offering `offers`, in order, to a tracker holding `init`. */
  function SweepBest(init: Candidate, offers: seq<Candidate>): Candidate
    decreases |offers|
  {
    if |offers| == 0 then init
    else Keep(SweepBest(init, offers[..|offers| - 1]), offers[|offers| - 1])
  }

  /** The tracker ends on a candidate it was given, and no candidate it saw is cheaper. */
  lemma {:induction false} SweepBestIsMinimum(init: Candidate, offers: seq<Candidate>)
    ensures var r := SweepBest(init, offers);
      (r == init || r in offers) &&
      LessEq(r.cost, init.cost) &&
      (forall j :: 0 <= j < |offers| ==> LessEq(r.cost, offers[j].cost))
    decreases |offers|
  {
    if |offers| > 0 {
      var n := |offers|;
      var prefix := offers[..n - 1];
      var r0 := SweepBest(init, prefix);
      SweepBestIsMinimum(init, prefix);
      var r := SweepBest(init, offers);
      assert r == Keep(r0, offers[n - 1]);
      forall j | 0 <= j < n
        ensures LessEq(r.cost, offers[j].cost)
      {
        if j < n - 1 {
          assert offers[j] == prefix[j];
          LessIsStrictTotalOrder(r.cost, r0.cost, offers[j].cost);
        }
      }
      LessIsStrictTotalOrder(r.cost, r0.cost, init.cost);
      assert r0 in prefix ==> r0 in offers;
    }
  }

  /**
   * Ties go to the earlier candidate: the tracker ends on `init` exactly
   * when no offer is strictly cheaper than it, and otherwise on the first
   * offer whose cost is strictly below `init` and every offer before it,
   * with no later offer strictly cheaper.
   */
  lemma {:induction false} SweepBestIsFirstMinimum(init: Candidate, offers: seq<Candidate>)
    ensures var r := SweepBest(init, offers);
      (r == init && forall j :: 0 <= j < |offers| ==> !Less(offers[j].cost, init.cost)) ||
      (exists k :: 0 <= k < |offers| && r == offers[k] && Less(r.cost, init.cost) &&
        (forall j :: 0 <= j < k ==> Less(r.cost, offers[j].cost)) &&
        (forall j :: k < j < |offers| ==> !Less(offers[j].cost, r.cost)))
    decreases |offers|
  {
    if |offers| > 0 {
      var n := |offers|;
      var prefix := offers[..n - 1];
      var r0 := SweepBest(init, prefix);
      var last := offers[n - 1];
      SweepBestIsFirstMinimum(init, prefix);
      SweepBestIsMinimum(init, prefix);
      var r := SweepBest(init, offers);
      if Less(last.cost, r0.cost) {
        assert r == last;
        LessIsStrictTotalOrder(last.cost, r0.cost, init.cost);
        forall j | 0 <= j < n - 1
          ensures Less(r.cost, offers[j].cost)
        {
          assert offers[j] == prefix[j];
          LessIsStrictTotalOrder(last.cost, r0.cost, offers[j].cost);
        }
      } else {
        assert r == r0;
        if r0 == init && forall j :: 0 <= j < n - 1 ==> !Less(prefix[j].cost, init.cost) {
          forall j | 0 <= j < n
            ensures !Less(offers[j].cost, init.cost)
          {
            if j < n - 1 { assert offers[j] == prefix[j]; }
          }
        } else {
          var k :| 0 <= k < n - 1 && r0 == prefix[k] && Less(r0.cost, init.cost) &&
            (forall j :: 0 <= j < k ==> Less(r0.cost, prefix[j].cost)) &&
            (forall j :: k < j < n - 1 ==> !Less(prefix[j].cost, r0.cost));
          assert r == offers[k];
          forall j | 0 <= j < k
            ensures Less(r.cost, offers[j].cost)
          {
            assert offers[j] == prefix[j];
          }
          forall j | k < j < n
            ensures !Less(offers[j].cost, r.cost)
          {
            if j < n - 1 { assert offers[j] == prefix[j]; }
          }
        }
      }
    }
  }

  /**
   * The per-depth scratch state that xCheckBestMode swaps: the prediction
   * and reconstruction buffer pointers of the best and temporary CU at each
   * depth (as buffer handles), and the CI_NEXT_BEST and CI_TEMP_BEST
   * entropy-coder context snapshots (as context handles).
   */
  class DepthBuffers {
    const depths: nat
    var predYuvBest: array<nat>
    var predYuvTemp: array<nat>
    var recoYuvBest: array<nat>
    var recoYuvTemp: array<nat>
    var ctxNextBest: array<nat>
    var ctxTempBest: array<nat>

    ghost predicate Valid()
      reads this
    {
      predYuvBest.Length == depths && predYuvTemp.Length == depths &&
      recoYuvBest.Length == depths && recoYuvTemp.Length == depths &&
      ctxNextBest.Length == depths && ctxTempBest.Length == depths &&
      Distinct6(predYuvBest, predYuvTemp, recoYuvBest, recoYuvTemp, ctxNextBest, ctxTempBest)
    }

    static predicate Distinct6(a: array<nat>, b: array<nat>, c: array<nat>,
                               d: array<nat>, e: array<nat>, f: array<nat>)
    {
      a != b && a != c && a != d && a != e && a != f &&
      b != c && b != d && b != e && b != f &&
      c != d && c != e && c != f &&
      d != e && d != f &&
      e != f
    }

    constructor (n: nat)
      ensures Valid() && depths == n
      ensures fresh(predYuvBest) && fresh(predYuvTemp) && fresh(recoYuvBest)
      ensures fresh(recoYuvTemp) && fresh(ctxNextBest) && fresh(ctxTempBest)
    {
      depths := n;
      predYuvBest := new nat[n](i => 2 * i);
      predYuvTemp := new nat[n](i => 2 * i + 1);
      recoYuvBest := new nat[n](i => 2 * i);
      recoYuvTemp := new nat[n](i => 2 * i + 1);
      ctxNextBest := new nat[n](i => 2 * i);
      ctxTempBest := new nat[n](i => 2 * i + 1);
    }

    /**
     * xCheckBestMode: when the temporary CU is strictly cheaper it becomes
     * the best one (and the old best becomes the scratch temporary), the
     * prediction and reconstruction buffers of this depth swap with it, and
     * the temporary-best context is stored as the next-best context.
     * Otherwise nothing changes.
     */
    method CheckBestMode(best: Candidate, temp: Candidate, depth: nat)
      returns (newBest: Candidate, newTemp: Candidate)
      requires Valid() && depth < depths
      modifies predYuvBest, predYuvTemp, recoYuvBest, recoYuvTemp, ctxNextBest
      ensures Valid()
      ensures newBest == Keep(best, temp)
      ensures multiset{newBest, newTemp} == multiset{best, temp}
      ensures Less(temp.cost, best.cost) ==>
        newBest == temp && newTemp == best &&
        predYuvBest[..] == old(predYuvBest[..])[depth := old(predYuvTemp[depth])] &&
        predYuvTemp[..] == old(predYuvTemp[..])[depth := old(predYuvBest[depth])] &&
        recoYuvBest[..] == old(recoYuvBest[..])[depth := old(recoYuvTemp[depth])] &&
        recoYuvTemp[..] == old(recoYuvTemp[..])[depth := old(recoYuvBest[depth])] &&
        ctxNextBest[..] == old(ctxNextBest[..])[depth := ctxTempBest[depth]]
      ensures !Less(temp.cost, best.cost) ==>
        newBest == best && newTemp == temp &&
        unchanged(predYuvBest) && unchanged(predYuvTemp) &&
        unchanged(recoYuvBest) && unchanged(recoYuvTemp) && unchanged(ctxNextBest)
    {
      if Less(temp.cost, best.cost) {
        newBest, newTemp := temp, best;
        predYuvBest[depth], predYuvTemp[depth] := predYuvTemp[depth], predYuvBest[depth];
        recoYuvBest[depth], recoYuvTemp[depth] := recoYuvTemp[depth], recoYuvBest[depth];
        ctxNextBest[depth] := ctxTempBest[depth];
      } else {
        newBest, newTemp := best, temp;
      }
    }
  }
}
