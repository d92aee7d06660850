/**
 * The luma-level to delta-QP table of the CU encoder: a sparse list of
 * (luma level, delta QP) pairs from the configuration is expanded into a
 * dense table of LUMA_LEVEL_TO_DQP_LUT_MAXSIZE entries (initLumaDeltaQpLUT),
 * and a CU's delta QP is read from it at a luma index clipped to the
 * table (calculateLumaDQP).
 */
module LumaDqp {
  import opened CuTypes

  /** LUMA_LEVEL_TO_DQP_LUT_MAXSIZE. */
  const LUT_SIZE: nat := 1024

  /** One entry of the sparse mapping: from this luma level on, this delta QP. */
  datatype MappingEntry = MappingEntry(level: int, deltaQp: int)

  /**
   * The number of leading entries of the mapping whose level is at most
   * `index`: how far the sparse cursor has advanced at that table index.
   */
  function Covered(m: seq<MappingEntry>, index: int): (n: nat)
    ensures n <= |m|
    decreases |m|
  {
    if |m| == 0 || m[0].level > index then 0 else 1 + Covered(m[1..], index)
  }

  /** The table entry at `index`: the delta QP of the last covered entry, 0 before the first. */
  function LutEntry(m: seq<MappingEntry>, index: int): int
  {
    var n := Covered(m, index);
    if n == 0 then 0 else m[n - 1].deltaQp
  }

  /** `n` is the covered count exactly when the first `n` levels are at most `index` and the next one is not. */
  lemma {:induction false} CoveredIsLongestPrefix(m: seq<MappingEntry>, index: int, n: nat)
    requires n <= |m|
    ensures n == Covered(m, index) <==>
      (forall j :: 0 <= j < n ==> m[j].level <= index) && (n == |m| || m[n].level > index)
    decreases |m|
  {
    if |m| > 0 && m[0].level <= index {
      if n > 0 {
        CoveredIsLongestPrefix(m[1..], index, n - 1);
        assert forall j :: 1 <= j < n ==> m[j] == m[1..][j - 1];
      }
    }
  }

  /** The cursor never moves back: a larger index covers at least as many entries. */
  lemma {:induction false} CoveredMonotone(m: seq<MappingEntry>, i: int, k: int)
    requires i <= k
    ensures Covered(m, i) <= Covered(m, k)
    decreases |m|
  {
    if |m| > 0 && m[0].level <= i {
      CoveredMonotone(m[1..], i, k);
    }
  }

  predicate SortedLevels(m: seq<MappingEntry>)
  {
    forall i, j :: 0 <= i < j < |m| ==> m[i].level <= m[j].level
  }

  /**
   * For a mapping sorted by level the table holds, at every index, the delta
   * QP of the last entry whose level is at most the index, and 0 when no
   * level is.
   */
  lemma LutEntryOfSortedMapping(m: seq<MappingEntry>, index: int)
    requires SortedLevels(m)
    ensures (forall j :: 0 <= j < |m| ==> m[j].level > index) ==> LutEntry(m, index) == 0
    ensures forall k :: 0 <= k < |m| && m[k].level <= index && (k + 1 == |m| || m[k + 1].level > index) ==>
      LutEntry(m, index) == m[k].deltaQp
  {
    var n := Covered(m, index);
    CoveredIsLongestPrefix(m, index, n);
    forall k | 0 <= k < |m| && m[k].level <= index && (k + 1 == |m| || m[k + 1].level > index)
      ensures n == k + 1
    {
      CoveredIsLongestPrefix(m, index, k + 1);
    }
    if forall j :: 0 <= j < |m| ==> m[j].level > index {
      if n > 0 {
        assert m[0].level <= index;
      }
    }
  }

  /** The part of the CU encoder that owns the dense table (m_lumaLevelToDeltaQPLUT). */
  class LumaDeltaQpLut {
    var lut: array<int>

    ghost predicate Valid()
      reads this
    {
      lut.Length == LUT_SIZE
    }

    constructor ()
      ensures Valid() && fresh(lut)
      ensures forall i :: 0 <= i < LUT_SIZE ==> lut[i] == 0
    {
      lut := new int[LUT_SIZE](_ => 0);
    }

    /**
     * initLumaDeltaQpLUT: when the mapping is enabled, every table entry is
     * written from the sparse mapping with a cursor that only moves forward;
     * when it is disabled the table is left as it was.
     */
    method InitLumaDeltaQpLut(enabled: bool, mapping: seq<MappingEntry>)
      requires Valid()
      modifies lut
      ensures Valid()
      ensures !enabled ==> unchanged(lut)
      ensures enabled ==> forall i :: 0 <= i < LUT_SIZE ==> lut[i] == LutEntry(mapping, i)
    {
      if !enabled {
        return;
      }
      var lastDeltaQpValue := 0;
      var nextSparseIndex := 0;
      var index := 0;
      while index < LUT_SIZE
        invariant 0 <= index <= LUT_SIZE
        invariant nextSparseIndex == (if index == 0 then 0 else Covered(mapping, index - 1))
        invariant lastDeltaQpValue == (if nextSparseIndex == 0 then 0 else mapping[nextSparseIndex - 1].deltaQp)
        invariant forall i :: 0 <= i < index ==> lut[i] == LutEntry(mapping, i)
      {
        if index > 0 {
          CoveredMonotone(mapping, index - 1, index);
        }
        CoveredIsLongestPrefix(mapping, index, Covered(mapping, index));
        while nextSparseIndex < |mapping| && index >= mapping[nextSparseIndex].level
          invariant nextSparseIndex <= Covered(mapping, index)
          invariant lastDeltaQpValue == (if nextSparseIndex == 0 then 0 else mapping[nextSparseIndex - 1].deltaQp)
        {
          lastDeltaQpValue := mapping[nextSparseIndex].deltaQp;
          nextSparseIndex := nextSparseIndex + 1;
        }
        CoveredIsLongestPrefix(mapping, index, nextSparseIndex);
        lut[index] := lastDeltaQpValue;
        index := index + 1;
      }
    }

    /**
     * The table lookup of calculateLumaDQP: the luma level `level` (the
     * rounded average or weighted maximum of the block) is clipped to the
     * table before the lookup.
     */
    function LumaDqp(level: int): (qp: int)
      requires Valid()
      reads this, lut
      ensures 0 <= level < LUT_SIZE ==> qp == lut[level]
      ensures level < 0 ==> qp == lut[0]
      ensures level >= LUT_SIZE ==> qp == lut[LUT_SIZE - 1]
    {
      lut[LumaIndex(level)]
    }
  }

  /** The lookup index of a luma level: Clip3(0, LUT_SIZE - 1, level). */
  function LumaIndex(level: int): (idx: nat)
    ensures idx < LUT_SIZE
    ensures 0 <= level < LUT_SIZE ==> idx == level
    ensures level < 0 ==> idx == 0
    ensures level >= LUT_SIZE ==> idx == LUT_SIZE - 1
  {
    Clip3(0, LUT_SIZE - 1, level)
  }

  /**
   * The block of calculateLumaDQP limited to the picture: a CU at (`x`, `y`)
   * reaching past the right or bottom edge is cut at the edge.
   */
  function ClipBlock(x: nat, y: nat, width: nat, height: nat, picWidth: nat, picHeight: nat): (r: (int, int))
    ensures r.0 <= width && r.1 <= height
    ensures x + width <= picWidth ==> r.0 == width
    ensures x + width > picWidth ==> x + r.0 == picWidth
    ensures y + height <= picHeight ==> r.1 == height
    ensures y + height > picHeight ==> y + r.1 == picHeight
  {
    (if x + width > picWidth then picWidth - x else width,
     if y + height > picHeight then picHeight - y else height)
  }
}
