/**
 * Two integer measures of a CU that the features encoder computes from
 * sample grids: the occupancy class of the CU, read from the point cloud's
 * occupancy map (CUClassify), and the smaller of the horizontal and the
 * vertical luma activity of its original samples
 * (CalculateMinimumHVLumaActivity).
 */
module BlockMetrics {
  import opened CuTypes
  import opened Strided

  /** One sample of the occupancy map: an unsigned byte. */
  type Byte = x: int | 0 <= x < 256

  function Sum(s: seq<int>): int
  {
    if |s| == 0 then 0 else Sum(s[..|s| - 1]) + s[|s| - 1]
  }

  lemma {:induction false} SumAppend(a: seq<int>, b: seq<int>)
    ensures Sum(a + b) == Sum(a) + Sum(b)
    decreases |b|
  {
    if |b| > 0 {
      var b' := b[..|b| - 1];
      assert (a + b)[..|a + b| - 1] == a + b';
      assert (a + b)[|a + b| - 1] == b[|b| - 1];
      SumAppend(a, b');
    } else {
      assert a + b == a;
    }
  }

  // ---------------------------------------------------------------------
  // CUClassify
  // ---------------------------------------------------------------------

  /**
   * The zoom from luma samples to occupancy samples: 2 when the occupancy
   * map was found at the doubled (r5) size, 4 otherwise.
   */
  function Shrink(qpr5: bool): nat
  {
    if qpr5 then 2 else 4
  }

  /** The three occupancy classes: 0 a free block, 1 a filled block, 2 a boundary block. */
  function Classify(count: int, area: int): int
  {
    if count == 0 then 0 else if count == area then 1 else 2
  }

  /**
   * CUClassify: the occupancy of the (Width / s) x (Height / s) window at
   * (X / s, Y / s) of the map of frame nowPOC / 2, s being the shrink, is
   * counted and classified. The map is occupancyWidth (`stride`) samples
   * wide; `occupancy` holds one map per frame pair.
   */
  method CUClassify(qpr5: bool, occupancy: seq<seq<Byte>>, stride: nat,
                    width: nat, height: nat, y: nat, x: nat, nowPoc: nat) returns (cate: int)
    requires nowPoc / 2 < |occupancy|
    requires WindowFits(|occupancy[nowPoc / 2]|, stride, x / Shrink(qpr5), y / Shrink(qpr5),
                         width / Shrink(qpr5), height / Shrink(qpr5))
    ensures var s := Shrink(qpr5);
      var win := Window(occupancy[nowPoc / 2], stride, x / s, y / s, width / s, height / s);
      cate == Classify(Sum(win), |win|)
  {
    var shrink := if qpr5 then 2 else 4;
    var oCuWidth := width / shrink;
    var oCuHeight := height / shrink;
    var oCuY := y / shrink;
    var oCuX := x / shrink;
    var numberOfOne := WindowOccupancy(occupancy[nowPoc / 2], stride, oCuX, oCuY, oCuWidth, oCuHeight);
    cate := if numberOfOne == 0 then 0 else if numberOfOne == oCuWidth * oCuHeight then 1 else 2;
  }

  /** The counting loops of CUClassify: the sum of the samples of the window. */
  method WindowOccupancy(frame: seq<Byte>, stride: nat, oCuX: nat, oCuY: nat, oCuWidth: nat, oCuHeight: nat)
    returns (numberOfOne: int)
    requires WindowFits(|frame|, stride, oCuX, oCuY, oCuWidth, oCuHeight)
    ensures numberOfOne == Sum(Window(frame, stride, oCuX, oCuY, oCuWidth, oCuHeight))
  {
    numberOfOne := 0;
    var i := 0;
    while i < oCuHeight
      invariant i <= oCuHeight
      invariant WindowFits(|frame|, stride, oCuX, oCuY, oCuWidth, i)
      invariant numberOfOne == Sum(Window(frame, stride, oCuX, oCuY, oCuWidth, i))
    {
      ghost var before := Window(frame, stride, oCuX, oCuY, oCuWidth, i);
      WindowPrefixFits(|frame|, stride, oCuX, oCuY, oCuWidth, oCuHeight, i + 1);
      if oCuWidth > 0 {
        WindowLastRow(frame, stride, oCuX, oCuY, oCuWidth, i + 1);
      }
      var rowCount := RowOccupancy(frame, (oCuY + i) * stride + oCuX, oCuWidth);
      numberOfOne := numberOfOne + rowCount;
      if oCuWidth > 0 {
        SumAppend(before, frame[(oCuY + i) * stride + oCuX..(oCuY + i) * stride + oCuX + oCuWidth]);
      }
      i := i + 1;
    }
  }

  /** The inner counting loop of CUClassify: the sum of the `w` map samples from `rowStart` on. */
  method RowOccupancy(frame: seq<Byte>, rowStart: nat, w: nat) returns (count: int)
    requires w > 0 ==> rowStart + w <= |frame|
    ensures w > 0 ==> count == Sum(frame[rowStart..rowStart + w])
    ensures w == 0 ==> count == 0
  {
    count := 0;
    var j := 0;
    while j < w
      invariant j <= w
      invariant w > 0 ==> count == Sum(frame[rowStart..rowStart + j])
      invariant w == 0 ==> count == 0
    {
      assert frame[rowStart..rowStart + j + 1][..j] == frame[rowStart..rowStart + j];
      count := count + frame[rowStart + j];
      j := j + 1;
    }
  }

  lemma {:induction false} SumOfBytes(s: seq<Byte>)
    ensures Sum(s) >= 0
    ensures Sum(s) == 0 <==> forall k :: 0 <= k < |s| ==> s[k] == 0
    decreases |s|
  {
    if |s| > 0 {
      var t := s[..|s| - 1];
      SumOfBytes(t);
      assert forall k :: 0 <= k < |t| ==> t[k] == s[k];
    }
  }

  lemma {:induction false} SumOfBits(s: seq<Byte>)
    requires forall k :: 0 <= k < |s| ==> s[k] <= 1
    ensures Sum(s) <= |s|
    ensures Sum(s) == |s| <==> forall k :: 0 <= k < |s| ==> s[k] == 1
    decreases |s|
  {
    if |s| > 0 {
      var t := s[..|s| - 1];
      SumOfBits(t);
      assert forall k :: 0 <= k < |t| ==> t[k] == s[k];
    }
  }

  /** Whatever the map holds, the class is 0 exactly when no sample of the window is occupied. */
  lemma FreeBlockIsUnoccupied(win: seq<Byte>)
    ensures Classify(Sum(win), |win|) in {0, 1, 2}
    ensures Classify(Sum(win), |win|) == 0 <==> forall k :: 0 <= k < |win| ==> win[k] == 0
  {
    SumOfBytes(win);
  }

  /**
   * On a binary (0/1) occupancy map the three classes are exact: 0 when the
   * window is empty, 1 when it is non-empty and fully occupied, 2 when it
   * holds both an occupied and an unoccupied sample.
   */
  lemma BinaryWindowClasses(win: seq<Byte>)
    requires forall k :: 0 <= k < |win| ==> win[k] <= 1
    ensures Classify(Sum(win), |win|) == 0 <==> forall k :: 0 <= k < |win| ==> win[k] == 0
    ensures Classify(Sum(win), |win|) == 1 <==> |win| > 0 && forall k :: 0 <= k < |win| ==> win[k] == 1
    ensures Classify(Sum(win), |win|) == 2 <==>
      (exists k :: 0 <= k < |win| && win[k] == 0) && (exists k :: 0 <= k < |win| && win[k] == 1)
  {
    SumOfBytes(win);
    SumOfBits(win);
    if |win| > 0 && forall k :: 0 <= k < |win| ==> win[k] == 1 {
      assert win[0] != 0;
    }
  }

  // ---------------------------------------------------------------------
  // CalculateMinimumHVLumaActivity
  // ---------------------------------------------------------------------

  /** |p(x, y) - p(x - 1, y)| summed over 1 <= x < n. */
  function HRow(p: Plane, y: nat, n: nat): nat
  {
    if n <= 1 then 0 else HRow(p, y, n - 1) + Abs(p(n - 1, y) - p(n - 2, y))
  }

  /** The horizontal activity of the first `rows` rows of `width` samples. */
  function HAct(p: Plane, width: nat, rows: nat): nat
  {
    if rows == 0 then 0 else HAct(p, width, rows - 1) + HRow(p, rows - 1, width)
  }

  /** |p(x, y) - p(x, y - 1)| summed over 0 <= x < n. */
  function VRow(p: Plane, y: nat, n: nat): nat
    requires y >= 1
  {
    if n == 0 then 0 else VRow(p, y, n - 1) + Abs(p(n - 1, y) - p(n - 1, y - 1))
  }

  /** The vertical activity of rows 1 .. rows - 1 against the row above. */
  function VAct(p: Plane, width: nat, rows: nat): nat
  {
    if rows <= 1 then 0 else VAct(p, width, rows - 1) + VRow(p, rows - 1, width)
  }

  /**
   * CalculateMinimumHVLumaActivity for the CU's own block (part index 0,
   * the only one its callers pass): the smaller of the horizontal and the
   * vertical activity of the width x height original luma samples `org`.
   */
  method CalculateMinimumHVLumaActivity(org: Plane, width: nat, height: nat) returns (act: int)
    ensures act <= HAct(org, width, height) && act <= VAct(org, width, height)
    ensures act == HAct(org, width, height) || act == VAct(org, width, height)
  {
    var hAct := HorizontalActivity(org, width, height);
    var vAct := VerticalActivity(org, width, height);
    act := if vAct < hAct then vAct else hAct;
  }

  /** The first loop nest of CalculateMinimumHVLumaActivity. */
  method HorizontalActivity(org: Plane, width: nat, height: nat) returns (hAct: int)
    ensures hAct == HAct(org, width, height)
  {
    hAct := 0;
    var y := 0;
    while y < height
      invariant y <= height
      invariant hAct == HAct(org, width, y)
    {
      var x := 1;
      while x < width
        invariant 1 <= x && (x <= width || x == 1)
        invariant hAct == HAct(org, width, y) + HRow(org, y, x)
      {
        hAct := hAct + Abs(org(x, y) - org(x - 1, y));
        x := x + 1;
      }
      y := y + 1;
    }
  }

  /** The second loop nest of CalculateMinimumHVLumaActivity, from the second row on. */
  method VerticalActivity(org: Plane, width: nat, height: nat) returns (vAct: int)
    ensures vAct == VAct(org, width, height)
  {
    vAct := 0;
    var y := 1;
    while y < height
      invariant 1 <= y && (y <= height || y == 1)
      invariant vAct == VAct(org, width, y)
    {
      var x := 0;
      while x < width
        invariant x <= width
        invariant vAct == VAct(org, width, y) + VRow(org, y, x)
      {
        vAct := vAct + Abs(org(x, y) - org(x, y - 1));
        x := x + 1;
      }
      y := y + 1;
    }
  }

  /** Row y is flat over its first `width` samples. */
  predicate FlatRow(p: Plane, y: nat, width: nat)
  {
    forall x: nat :: x < width ==> p(x, y) == p(0, y)
  }

  /** Column x is flat over its first `height` samples. */
  predicate FlatColumn(p: Plane, x: nat, height: nat)
  {
    forall y: nat :: y < height ==> p(x, y) == p(x, 0)
  }

  lemma {:induction false} FlatRowHasNoHorizontalActivity(p: Plane, y: nat, n: nat, width: nat)
    requires n <= width && FlatRow(p, y, width)
    ensures HRow(p, y, n) == 0
    decreases n
  {
    if n > 1 {
      FlatRowHasNoHorizontalActivity(p, y, n - 1, width);
    }
  }

  /** A block whose rows are each flat has no horizontal activity. */
  lemma {:induction false} FlatRowsHaveNoHorizontalActivity(p: Plane, width: nat, rows: nat)
    requires forall y: nat :: y < rows ==> FlatRow(p, y, width)
    ensures HAct(p, width, rows) == 0
    decreases rows
  {
    if rows > 0 {
      FlatRowsHaveNoHorizontalActivity(p, width, rows - 1);
      FlatRowHasNoHorizontalActivity(p, rows - 1, width, width);
    }
  }

  lemma {:induction false} FlatColumnsVRow(p: Plane, y: nat, n: nat, height: nat)
    requires 1 <= y < height
    requires forall x: nat :: x < n ==> FlatColumn(p, x, height)
    ensures VRow(p, y, n) == 0
    decreases n
  {
    if n > 0 {
      FlatColumnsVRow(p, y, n - 1, height);
      assert FlatColumn(p, n - 1, height);
      assert p(n - 1, y) == p(n - 1, 0) == p(n - 1, y - 1);
    }
  }

  /** A block whose columns are each flat has no vertical activity. */
  lemma {:induction false} FlatColumnsHaveNoVerticalActivity(p: Plane, width: nat, rows: nat, height: nat)
    requires rows <= height
    requires forall x: nat :: x < width ==> FlatColumn(p, x, height)
    ensures VAct(p, width, rows) == 0
    decreases rows
  {
    if rows > 1 {
      FlatColumnsHaveNoVerticalActivity(p, width, rows - 1, height);
      FlatColumnsVRow(p, rows - 1, width, height);
    }
  }

  /**
   * The minimum activity is never negative, and it is 0 for a block whose
   * rows are flat, for one whose columns are flat, and so for a constant block.
   */
  lemma MinimumActivityOfFlatBlocks(org: Plane, width: nat, height: nat, act: int)
    requires act <= HAct(org, width, height) && act <= VAct(org, width, height)
    requires act == HAct(org, width, height) || act == VAct(org, width, height)
    ensures act >= 0
    ensures (forall y: nat :: y < height ==> FlatRow(org, y, width)) ==> act == 0
    ensures (forall x: nat :: x < width ==> FlatColumn(org, x, height)) ==> act == 0
    ensures (forall x: nat, y: nat :: org(x, y) == org(0, 0)) ==> act == 0
  {
    if forall y: nat :: y < height ==> FlatRow(org, y, width) {
      FlatRowsHaveNoHorizontalActivity(org, width, height);
    }
    if forall x: nat :: x < width ==> FlatColumn(org, x, height) {
      FlatColumnsHaveNoVerticalActivity(org, width, height, height);
    }
    if forall x: nat, y: nat :: org(x, y) == org(0, 0) {
      FlatRowsHaveNoHorizontalActivity(org, width, height);
    }
  }

  lemma {:induction false} HRowIgnoresOffset(p: Plane, q: Plane, d: int, y: nat, n: nat)
    requires forall x: nat :: q(x, y) == p(x, y) + d
    ensures HRow(q, y, n) == HRow(p, y, n)
    decreases n
  {
    if n > 1 {
      HRowIgnoresOffset(p, q, d, y, n - 1);
      assert q(n - 1, y) - q(n - 2, y) == p(n - 1, y) - p(n - 2, y);
    }
  }

  lemma {:induction false} VRowIgnoresOffset(p: Plane, q: Plane, d: int, y: nat, n: nat)
    requires y >= 1
    requires forall x: nat :: q(x, y) == p(x, y) + d && q(x, y - 1) == p(x, y - 1) + d
    ensures VRow(q, y, n) == VRow(p, y, n)
    decreases n
  {
    if n > 0 {
      VRowIgnoresOffset(p, q, d, y, n - 1);
      assert q(n - 1, y) - q(n - 1, y - 1) == p(n - 1, y) - p(n - 1, y - 1);
    }
  }

  /**
   * Both activities measure differences only: adding the same offset `d`
   * to every sample changes neither of them.
   */
  lemma {:induction false} ActivityIgnoresOffset(p: Plane, q: Plane, d: int, width: nat, rows: nat)
    requires forall x: nat, y: nat :: q(x, y) == p(x, y) + d
    ensures HAct(q, width, rows) == HAct(p, width, rows)
    ensures VAct(q, width, rows) == VAct(p, width, rows)
    decreases rows
  {
    if rows > 0 {
      ActivityIgnoresOffset(p, q, d, width, rows - 1);
      HRowIgnoresOffset(p, q, d, rows - 1, width);
      if rows > 1 {
        VRowIgnoresOffset(p, q, d, rows - 1, width);
      }
    }
  }
}
