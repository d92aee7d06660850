/**
 * Rectangular windows of a flat sample buffer read row by row with a row
 * stride, as the encoder's loops over `buffer[(y0 + i) * stride + x0 + j]`
 * read them.
 */
module Strided {

  /** a * c <= b * c for a <= b and c >= 0, by induction on b - a. */
  lemma {:induction false} MulMonotone(a: nat, b: nat, c: nat)
    requires a <= b
    ensures a * c <= b * c
    decreases b - a
  {
    if a < b {
      MulMonotone(a, b - 1, c);
      assert b * c == (b - 1) * c + c;
    }
  }

  /**
   * Every sample of the window lies inside the buffer: the last sample of
   * its last row, at (y0 + h - 1) * stride + x0 + w - 1, does. A window
   * reaching past the right edge of a row wraps into the next row, as a
   * flat index does.
   */
  predicate WindowFits(bufLen: nat, stride: nat, x0: nat, y0: nat, w: nat, h: nat)
  {
    w == 0 || h == 0 || (y0 + h - 1) * stride + x0 + w <= bufLen
  }

  lemma WindowRowFits(bufLen: nat, stride: nat, x0: nat, y0: nat, w: nat, h: nat, i: nat)
    requires WindowFits(bufLen, stride, x0, y0, w, h) && i < h && w > 0
    ensures (y0 + i) * stride + x0 + w <= bufLen
  {
    MulMonotone(y0 + i, y0 + h - 1, stride);
  }

  lemma WindowPrefixFits(bufLen: nat, stride: nat, x0: nat, y0: nat, w: nat, h: nat, i: nat)
    requires WindowFits(bufLen, stride, x0, y0, w, h) && i <= h
    ensures WindowFits(bufLen, stride, x0, y0, w, i)
  {
    if i > 0 && w > 0 {
      WindowRowFits(bufLen, stride, x0, y0, w, h, i - 1);
    }
  }

  /** The `h` rows of `w` samples from column `x0` of row `y0` on, row after row. */
  function Window<T>(buf: seq<T>, stride: nat, x0: nat, y0: nat, w: nat, h: nat): (s: seq<T>)
    requires WindowFits(|buf|, stride, x0, y0, w, h)
    ensures |s| == w * h
  {
    if w == 0 || h == 0 then []
    else
      WindowRowFits(|buf|, stride, x0, y0, w, h, h - 1);
      WindowPrefixFits(|buf|, stride, x0, y0, w, h, h - 1);
      var base := (y0 + h - 1) * stride + x0;
      Window(buf, stride, x0, y0, w, h - 1) + buf[base..base + w]
  }

  /** Where sample `c` of row `r` sits in `h` rows of `w` samples laid end to end. */
  lemma RowMajorIndex(r: nat, c: nat, w: nat, h: nat)
    requires r < h && c < w
    ensures r * w + c < w * h
    ensures r < h - 1 ==> r * w + c < w * (h - 1)
    ensures r == h - 1 ==> r * w == w * (h - 1)
  {
    MulMonotone(r, h - 1, w);
    if r < h - 1 {
      MulMonotone(r, h - 2, w);
    }
  }

  /** A window of `h` rows is the window of its first `h - 1` rows followed by its last row. */
  lemma WindowLastRow<T>(buf: seq<T>, stride: nat, x0: nat, y0: nat, w: nat, h: nat)
    requires WindowFits(|buf|, stride, x0, y0, w, h) && w > 0 && h > 0
    ensures WindowFits(|buf|, stride, x0, y0, w, h - 1)
    ensures (y0 + h - 1) * stride + x0 + w <= |buf|
    ensures Window(buf, stride, x0, y0, w, h) ==
      Window(buf, stride, x0, y0, w, h - 1) + buf[(y0 + h - 1) * stride + x0..(y0 + h - 1) * stride + x0 + w]
  {
    WindowPrefixFits(|buf|, stride, x0, y0, w, h, h - 1);
  }

  /** Sample `c` of the last window row is the buffer sample at (x0 + c, y0 + h - 1). */
  lemma WindowAtLastRow<T>(buf: seq<T>, stride: nat, x0: nat, y0: nat, w: nat, h: nat, c: nat)
    requires WindowFits(|buf|, stride, x0, y0, w, h)
    requires 0 < h && c < w
    ensures w * (h - 1) + c < w * h
    ensures Window(buf, stride, x0, y0, w, h)[w * (h - 1) + c] == buf[(y0 + h - 1) * stride + x0 + c]
  {
    WindowLastRow(buf, stride, x0, y0, w, h);
  }

  /** Sample `c` of window row `r` is the buffer sample at (x0 + c, y0 + r). */
  lemma {:induction false} WindowAt<T>(buf: seq<T>, stride: nat, x0: nat, y0: nat, w: nat, h: nat, r: nat, c: nat)
    requires WindowFits(|buf|, stride, x0, y0, w, h)
    requires r < h && c < w
    ensures r * w + c < w * h
    ensures Window(buf, stride, x0, y0, w, h)[r * w + c] == buf[(y0 + r) * stride + x0 + c]
    decreases h
  {
    RowMajorIndex(r, c, w, h);
    if r < h - 1 {
      WindowLastRow(buf, stride, x0, y0, w, h);
      WindowAt(buf, stride, x0, y0, w, h - 1, r, c);
    } else {
      WindowAtLastRow(buf, stride, x0, y0, w, h, c);
    }
  }
}
