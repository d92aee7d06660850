/**
 * The intra-slice complexity measure of the CU encoder: the 8x8 Hadamard
 * SATD of a block of original luma samples with the DC coefficient left
 * out (xCalcHADs8x8_ISlice), and its sum over the 8x8 tiles of a CTU
 * (updateCtuDataISlice), used by rate control for I slices.
 */
module Hadamard {
  import opened CuTypes

  /** Eight values: a row or a column of an 8x8 block. */
  datatype Row8 = Row8(v0: int, v1: int, v2: int, v3: int, v4: int, v5: int, v6: int, v7: int)
  {
    function At(j: nat): int
      requires j < 8
    {
      if j == 0 then v0 else if j == 1 then v1 else if j == 2 then v2 else if j == 3 then v3
      else if j == 4 then v4 else if j == 5 then v5 else if j == 6 then v6 else v7
    }

    function Sum(): int
    {
      v0 + v1 + v2 + v3 + v4 + v5 + v6 + v7
    }
  }

  /** An 8x8 block of samples or coefficients, row by row. */
  datatype Block8 = Block8(r0: Row8, r1: Row8, r2: Row8, r3: Row8, r4: Row8, r5: Row8, r6: Row8, r7: Row8)
  {
    function Row(i: nat): Row8
      requires i < 8
    {
      if i == 0 then r0 else if i == 1 then r1 else if i == 2 then r2 else if i == 3 then r3
      else if i == 4 then r4 else if i == 5 then r5 else if i == 6 then r6 else r7
    }

    function At(i: nat, j: nat): int
      requires i < 8 && j < 8
    {
      Row(i).At(j)
    }
  }

  /**
   * The three butterfly stages the encoder applies to each row and then to
   * each column: an unnormalised 8-point Hadamard transform.
   */
  function Butterfly8(v: Row8): (w: Row8)
    ensures w.v0 == v.Sum()
  {
    var a0, a1, a2, a3 := v.v0 + v.v4, v.v1 + v.v5, v.v2 + v.v6, v.v3 + v.v7;
    var a4, a5, a6, a7 := v.v0 - v.v4, v.v1 - v.v5, v.v2 - v.v6, v.v3 - v.v7;
    var b0, b1, b2, b3 := a0 + a2, a1 + a3, a0 - a2, a1 - a3;
    var b4, b5, b6, b7 := a4 + a6, a5 + a7, a4 - a6, a5 - a7;
    Row8(b0 + b1, b0 - b1, b2 + b3, b2 - b3, b4 + b5, b4 - b5, b6 + b7, b6 - b7)
  }

  /** The butterflies applied to every row. */
  function Rows(m: Block8): Block8
  {
    Block8(Butterfly8(m.r0), Butterfly8(m.r1), Butterfly8(m.r2), Butterfly8(m.r3),
           Butterfly8(m.r4), Butterfly8(m.r5), Butterfly8(m.r6), Butterfly8(m.r7))
  }

  /** The block mirrored on its diagonal: row `i` becomes column `i`. */
  function Transpose(m: Block8): Block8
  {
    Block8(
      Row8(m.r0.v0, m.r1.v0, m.r2.v0, m.r3.v0, m.r4.v0, m.r5.v0, m.r6.v0, m.r7.v0),
      Row8(m.r0.v1, m.r1.v1, m.r2.v1, m.r3.v1, m.r4.v1, m.r5.v1, m.r6.v1, m.r7.v1),
      Row8(m.r0.v2, m.r1.v2, m.r2.v2, m.r3.v2, m.r4.v2, m.r5.v2, m.r6.v2, m.r7.v2),
      Row8(m.r0.v3, m.r1.v3, m.r2.v3, m.r3.v3, m.r4.v3, m.r5.v3, m.r6.v3, m.r7.v3),
      Row8(m.r0.v4, m.r1.v4, m.r2.v4, m.r3.v4, m.r4.v4, m.r5.v4, m.r6.v4, m.r7.v4),
      Row8(m.r0.v5, m.r1.v5, m.r2.v5, m.r3.v5, m.r4.v5, m.r5.v5, m.r6.v5, m.r7.v5),
      Row8(m.r0.v6, m.r1.v6, m.r2.v6, m.r3.v6, m.r4.v6, m.r5.v6, m.r6.v6, m.r7.v6),
      Row8(m.r0.v7, m.r1.v7, m.r2.v7, m.r3.v7, m.r4.v7, m.r5.v7, m.r6.v7, m.r7.v7))
  }

  /**
   * One pass of the 2-D transform: the butterflies along every row, the
   * result turned so that the next pass runs down the former columns.
   */
  function Pass(m: Block8): Block8
  {
    Transpose(Rows(m))
  }

  /**
   * The 2-D transform: the horizontal pass over the rows, then the vertical
   * pass, which is the same butterfly down each column; the second turn
   * restores the orientation of the block.
   */
  function Transform(b: Block8): Block8
  {
    Pass(Pass(b))
  }

  /** The absolute values of the first `j` entries of a row. */
  function SumAbsPrefix(v: Row8, j: nat): nat
    requires j <= 8
  {
    if j == 0 then 0 else SumAbsPrefix(v, j - 1) + Abs(v.At(j - 1))
  }

  /** The absolute values of the first `i` rows. */
  function SumAbsRows(m: Block8, i: nat): nat
    requires i <= 8
  {
    if i == 0 then 0 else SumAbsRows(m, i - 1) + SumAbsPrefix(m.Row(i - 1), 8)
  }

  /** The sum of the absolute values of all 64 entries. */
  function SumAbs(m: Block8): nat
  {
    SumAbsRows(m, 8)
  }

  /** The SATD of a block of coefficients without its DC coefficient, rounded to a quarter. */
  function Satd(m: Block8): int
  {
    (SumAbs(m) - Abs(m.r0.v0) + 2) / 4
  }

  /** The measure of a block that still needs `passes` passes of the transform. */
  function SatdAfter(m: Block8, passes: nat): int
    decreases passes
  {
    if passes == 0 then Satd(m) else SatdAfter(Pass(m), passes - 1)
  }

  /** The measure of xCalcHADs8x8_ISlice: the SATD of the transformed block. */
  function Had8x8(b: Block8): int
  {
    SatdAfter(b, 2)
  }

  lemma Had8x8IsSatdOfTransform(b: Block8)
    ensures Had8x8(b) == Satd(Transform(b))
  {
    assert SatdAfter(Pass(b), 1) == SatdAfter(Transform(b), 0);
  }

  /** The measure is never negative: the excluded DC term is one of the summed terms. */
  lemma Had8x8IsNonNegative(b: Block8)
    ensures Had8x8(b) >= 0
  {
    Had8x8IsSatdOfTransform(b);
    DcIsASummedTerm(Transform(b), 8);
  }

  /** The first `i >= 1` rows include the top-left entry, so their sum is at least its absolute value. */
  lemma {:induction false} DcIsASummedTerm(m: Block8, i: nat)
    requires 1 <= i <= 8
    ensures SumAbsRows(m, i) >= Abs(m.r0.v0)
  {
    if i == 1 {
      RowPrefixGrows(m.r0, 8);
    } else {
      DcIsASummedTerm(m, i - 1);
    }
  }

  /** A row prefix of length `j >= 1` includes the first entry. */
  lemma {:induction false} RowPrefixGrows(v: Row8, j: nat)
    requires 1 <= j <= 8
    ensures SumAbsPrefix(v, j) >= Abs(v.v0)
  {
    if j > 1 {
      RowPrefixGrows(v, j - 1);
    }
  }

  /** The excluded DC coefficient is the sum of the 64 samples. */
  lemma DcIsBlockSum(b: Block8)
    ensures Transform(b).r0.v0 ==
      b.r0.Sum() + b.r1.Sum() + b.r2.Sum() + b.r3.Sum() + b.r4.Sum() + b.r5.Sum() + b.r6.Sum() + b.r7.Sum()
  {
    var h := Rows(b);
    assert Transpose(h).r0 == Row8(b.r0.Sum(), b.r1.Sum(), b.r2.Sum(), b.r3.Sum(),
                                   b.r4.Sum(), b.r5.Sum(), b.r6.Sum(), b.r7.Sum());
  }

  function Flat(k: int): Row8
  {
    Row8(k, k, k, k, k, k, k, k)
  }

  /** The block whose only nonzero entry is a top-left `d`. */
  function DcOnly(d: int): Block8
  {
    var z := Flat(0);
    Block8(Row8(d, 0, 0, 0, 0, 0, 0, 0), z, z, z, z, z, z, z)
  }

  function FlatBlock(k: int): Block8
  {
    Block8(Flat(k), Flat(k), Flat(k), Flat(k), Flat(k), Flat(k), Flat(k), Flat(k))
  }

  lemma FlatRowsTransform(k: int)
    ensures Rows(FlatBlock(k)) == Transpose(Block8(Flat(8 * k), Flat(0), Flat(0), Flat(0), Flat(0), Flat(0), Flat(0), Flat(0)))
  {
    var dc := Row8(8 * k, 0, 0, 0, 0, 0, 0, 0);
    assert Butterfly8(Flat(k)) == dc;
  }

  lemma DcColumnTransform(k: int)
    ensures Rows(Block8(Flat(8 * k), Flat(0), Flat(0), Flat(0), Flat(0), Flat(0), Flat(0), Flat(0))) == DcOnly(64 * k)
  {
    assert Butterfly8(Flat(8 * k)) == Row8(64 * k, 0, 0, 0, 0, 0, 0, 0);
    assert Butterfly8(Flat(0)) == Flat(0);
  }

  lemma TransposeTwice(m: Block8)
    ensures Transpose(Transpose(m)) == m
  {
  }

  lemma DcOnlyIsSymmetric(d: int)
    ensures Transpose(DcOnly(d)) == DcOnly(d)
  {
  }

  /** A flat block has no AC energy: its transform is its DC coefficient alone, so its measure is 0. */
  lemma FlatBlockMeasuresZero(k: int)
    ensures Transform(FlatBlock(k)) == DcOnly(64 * k)
    ensures Had8x8(FlatBlock(k)) == 0
  {
    Had8x8IsSatdOfTransform(FlatBlock(k));
    FlatRowsTransform(k);
    var c := Block8(Flat(8 * k), Flat(0), Flat(0), Flat(0), Flat(0), Flat(0), Flat(0), Flat(0));
    TransposeTwice(c);
    DcColumnTransform(k);
    DcOnlyIsSymmetric(64 * k);
    DcOnlySumAbs(64 * k, 8);
  }

  /** A row with only a leading `d`, or no nonzero entry at all, sums to |d|, respectively 0. */
  lemma {:induction false} SparseRowSumAbs(d: int, j: nat)
    requires 1 <= j <= 8
    ensures SumAbsPrefix(Row8(d, 0, 0, 0, 0, 0, 0, 0), j) == Abs(d)
  {
    if j > 1 {
      SparseRowSumAbs(d, j - 1);
    }
  }

  lemma {:induction false} DcOnlySumAbs(d: int, i: nat)
    requires 1 <= i <= 8
    ensures SumAbsRows(DcOnly(d), i) == Abs(d)
  {
    if i == 1 {
      SparseRowSumAbs(d, 8);
    } else {
      DcOnlySumAbs(d, i - 1);
      SparseRowSumAbs(0, 8);
      assert Flat(0) == Row8(0, 0, 0, 0, 0, 0, 0, 0);
    }
  }

  /** The absolute values of one row of coefficients, accumulated left to right. */
  method RowAbsSum(v: Row8) returns (rowSum: nat)
    ensures rowSum == SumAbsPrefix(v, 8)
  {
    rowSum := 0;
    var j := 0;
    while j < 8
      invariant 0 <= j <= 8
      invariant rowSum == SumAbsPrefix(v, j)
    {
      rowSum := rowSum + Abs(v.At(j));
      j := j + 1;
    }
  }

  /** The rounded SATD of a block of coefficients without its DC term, accumulated row by row. */
  method CoefficientSatd(m: Block8) returns (sumHad: int)
    ensures sumHad == Satd(m)
  {
    sumHad := 0;
    var i := 0;
    while i < 8
      invariant 0 <= i <= 8
      invariant sumHad == SumAbsRows(m, i)
    {
      var rowSum := RowAbsSum(m.Row(i));
      sumHad := sumHad + rowSum;
      i := i + 1;
    }
    sumHad := sumHad - Abs(m.At(0, 0));
    sumHad := (sumHad + 2) / 4;
  }

  /**
   * xCalcHADs8x8_ISlice: the transform, then the absolute coefficients
   * summed row by row, the DC one taken back out, and the result rounded.
   */
  method CalcHads8x8(b: Block8) returns (sumHad: int)
    ensures sumHad == Had8x8(b)
  {
    var m2 := Transform(b);
    sumHad := CoefficientSatd(m2);
    Had8x8IsSatdOfTransform(b);
  }

  // The CTU's original luma samples are a Plane seen from the CTU's top-left
  // corner (pOrgInit + stride * y + x).

  /** The eight samples of row `y` from column `x` on. */
  function SampleRow(org: Plane, x: nat, y: nat): Row8
  {
    Row8(org(x, y), org(x + 1, y), org(x + 2, y), org(x + 3, y), org(x + 4, y), org(x + 5, y), org(x + 6, y), org(x + 7, y))
  }

  /** The 8x8 block whose top-left sample is at column `x` and row `y`. */
  function BlockAt(org: Plane, x: nat, y: nat): Block8
  {
    Block8(SampleRow(org, x, y), SampleRow(org, x, y + 1), SampleRow(org, x, y + 2), SampleRow(org, x, y + 3),
           SampleRow(org, x, y + 4), SampleRow(org, x, y + 5), SampleRow(org, x, y + 6), SampleRow(org, x, y + 7))
  }

  /** The tiles of a picture, by tile column and tile row. */
  type Tiles = (nat, nat) -> Block8

  function TilesOf(org: Plane): Tiles
  {
    (tx: nat, ty: nat) => BlockAt(org, 8 * tx, 8 * ty)
  }

  /** The measures `f` of the first `n` tiles of tile row `ty`. */
  function TileRowSum(f: Block8 -> int, t: Tiles, ty: nat, n: nat): int
  {
    if n == 0 then 0 else TileRowSum(f, t, ty, n - 1) + f(t(n - 1, ty))
  }

  /** The measures `f` of the first `n` tiles of each of the first `rows` tile rows. */
  function CtuSum(f: Block8 -> int, t: Tiles, n: nat, rows: nat): int
  {
    if rows == 0 then 0 else CtuSum(f, t, n, rows - 1) + TileRowSum(f, t, rows - 1, n)
  }

  /**
   * The complexity of a `width` x `height` CTU: the sum of the measures of
   * its whole 8x8 tiles; a partial column or row of tiles at the right or
   * bottom edge is not measured.
   */
  function CtuHad(org: Plane, width: nat, height: nat): int
  {
    CtuSum(Had8x8, TilesOf(org), width / 8, height / 8)
  }

  /** The inner loop of updateCtuDataISlice: the whole tiles of the tile row starting at sample row `yBl`, left to right. */
  method TileRowHad(org: Plane, width: nat, yBl: nat, ghost ty: nat) returns (rowSum: int)
    requires yBl == 8 * ty
    ensures rowSum == TileRowSum(Had8x8, TilesOf(org), ty, width / 8)
  {
    rowSum := 0;
    var xBl := 0;
    ghost var tx := 0;
    while xBl + 8 <= width
      invariant xBl == 8 * tx && xBl <= width
      invariant rowSum == TileRowSum(Had8x8, TilesOf(org), ty, tx)
    {
      var had := CalcHads8x8(BlockAt(org, xBl, yBl));
      assert TileRowSum(Had8x8, TilesOf(org), ty, tx + 1) == rowSum + had;
      rowSum := rowSum + had;
      xBl, tx := xBl + 8, tx + 1;
    }
    assert tx == width / 8;
  }

  /** updateCtuDataISlice: the tiles are visited row by row, left to right, while a whole tile fits. */
  method UpdateCtuDataISlice(org: Plane, width: nat, height: nat) returns (sumHad: int)
    ensures sumHad == CtuHad(org, width, height)
  {
    sumHad := 0;
    var yBl := 0;
    ghost var ty := 0;
    while yBl + 8 <= height
      invariant yBl == 8 * ty && yBl <= height
      invariant sumHad == CtuSum(Had8x8, TilesOf(org), width / 8, ty)
    {
      var rowSum := TileRowHad(org, width, yBl, ty);
      assert CtuSum(Had8x8, TilesOf(org), width / 8, ty + 1) == sumHad + rowSum;
      sumHad := sumHad + rowSum;
      yBl, ty := yBl + 8, ty + 1;
    }
    assert ty == height / 8;
  }

  /** A non-negative measure gives non-negative partial sums. */
  lemma {:induction false} TileRowSumIsNonNegative(f: Block8 -> int, t: Tiles, ty: nat, n: nat)
    requires forall b :: f(b) >= 0
    ensures TileRowSum(f, t, ty, n) >= 0
  {
    if n > 0 {
      TileRowSumIsNonNegative(f, t, ty, n - 1);
    }
  }

  lemma {:induction false} CtuSumIsNonNegative(f: Block8 -> int, t: Tiles, n: nat, rows: nat)
    requires forall b :: f(b) >= 0
    ensures CtuSum(f, t, n, rows) >= 0
  {
    if rows > 0 {
      CtuSumIsNonNegative(f, t, n, rows - 1);
      TileRowSumIsNonNegative(f, t, rows - 1, n);
    }
  }

  /** The complexity of a CTU is never negative. */
  lemma CtuHadIsNonNegative(org: Plane, width: nat, height: nat)
    ensures CtuHad(org, width, height) >= 0
  {
    forall b: Block8 ensures Had8x8(b) >= 0 {
      Had8x8IsNonNegative(b);
    }
    CtuSumIsNonNegative(Had8x8, TilesOf(org), width / 8, height / 8);
  }

  /** A block is read from its own 64 samples only. */
  lemma BlockReadsOnlyItsSamples(org1: Plane, org2: Plane, x: nat, y: nat)
    requires forall a: nat, b: nat :: x <= a < x + 8 && y <= b < y + 8 ==> org1(a, b) == org2(a, b)
    ensures BlockAt(org1, x, y) == BlockAt(org2, x, y)
  {
  }

  /** Two pictures with the same first `n` tiles in tile row `ty` give the same row sum. */
  lemma {:induction false} TileRowReadsOnlyItsTiles(f: Block8 -> int, t1: Tiles, t2: Tiles, ty: nat, n: nat)
    requires forall tx: nat :: tx < n ==> t1(tx, ty) == t2(tx, ty)
    ensures TileRowSum(f, t1, ty, n) == TileRowSum(f, t2, ty, n)
  {
    if n > 0 {
      TileRowReadsOnlyItsTiles(f, t1, t2, ty, n - 1);
    }
  }

  lemma {:induction false} CtuSumReadsOnlyItsTiles(f: Block8 -> int, t1: Tiles, t2: Tiles, n: nat, rows: nat)
    requires forall tx: nat, ty: nat :: tx < n && ty < rows ==> t1(tx, ty) == t2(tx, ty)
    ensures CtuSum(f, t1, n, rows) == CtuSum(f, t2, n, rows)
  {
    if rows > 0 {
      CtuSumReadsOnlyItsTiles(f, t1, t2, n, rows - 1);
      TileRowReadsOnlyItsTiles(f, t1, t2, rows - 1, n);
    }
  }

  /**
   * The complexity reads only the whole tiles: samples in a partial column
   * of tiles at the right edge or a partial row of tiles at the bottom do
   * not change it.
   */
  lemma CtuHadReadsOnlyWholeTiles(org1: Plane, org2: Plane, width: nat, height: nat)
    requires forall x: nat, y: nat :: x < 8 * (width / 8) && y < 8 * (height / 8) ==> org1(x, y) == org2(x, y)
    ensures CtuHad(org1, width, height) == CtuHad(org2, width, height)
  {
    forall tx: nat, ty: nat | tx < width / 8 && ty < height / 8
      ensures TilesOf(org1)(tx, ty) == TilesOf(org2)(tx, ty)
    {
      BlockReadsOnlyItsSamples(org1, org2, 8 * tx, 8 * ty);
    }
    CtuSumReadsOnlyItsTiles(Had8x8, TilesOf(org1), TilesOf(org2), width / 8, height / 8);
  }

  /** Tiles that all measure 0 sum to 0. */
  lemma {:induction false} ZeroTileRow(f: Block8 -> int, t: Tiles, ty: nat, n: nat)
    requires forall tx: nat :: f(t(tx, ty)) == 0
    ensures TileRowSum(f, t, ty, n) == 0
  {
    if n > 0 {
      ZeroTileRow(f, t, ty, n - 1);
    }
  }

  lemma {:induction false} ZeroCtuSum(f: Block8 -> int, t: Tiles, n: nat, rows: nat)
    requires forall tx: nat, ty: nat :: f(t(tx, ty)) == 0
    ensures CtuSum(f, t, n, rows) == 0
  {
    if rows > 0 {
      ZeroCtuSum(f, t, n, rows - 1);
      ZeroTileRow(f, t, rows - 1, n);
    }
  }

  /** A CTU of one constant luma level has no complexity at all: every tile is flat. */
  lemma FlatCtuMeasuresZero(org: Plane, k: int, width: nat, height: nat)
    requires forall x: nat, y: nat :: org(x, y) == k
    ensures CtuHad(org, width, height) == 0
  {
    FlatBlockMeasuresZero(k);
    forall tx: nat, ty: nat
      ensures Had8x8(TilesOf(org)(tx, ty)) == 0
    {
      assert BlockAt(org, 8 * tx, 8 * ty) == FlatBlock(k);
    }
    ZeroCtuSum(Had8x8, TilesOf(org), width / 8, height / 8);
  }
}
