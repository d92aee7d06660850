/**
 * The PCM sample buffer of a CU (xFillPCMBuffer): before a CU is tried in
 * PCM mode its original samples are copied, component by component, from
 * the strided original-picture buffer into the CU's packed PCM buffers,
 * `width` samples per row with no gap between rows.
 */
module PcmBuffer {
  import opened Strided

  /** The chroma sampling formats of HEVC. */
  datatype ChromaFormat = Chroma400 | Chroma420 | Chroma422 | Chroma444

  /** getNumberValidComponents: luma alone in 4:0:0, luma and two chroma components otherwise. */
  function NumberValidComponents(format: ChromaFormat): nat
  {
    if format == Chroma400 then 1 else 3
  }

  /** getComponentScaleX: chroma (components 1 and 2) is halved horizontally except in 4:4:4. */
  function ScaleX(component: nat, format: ChromaFormat): nat
  {
    if component == 0 || format == Chroma444 then 0 else 1
  }

  /** getComponentScaleY: chroma is halved vertically in 4:2:0 only. */
  function ScaleY(component: nat, format: ChromaFormat): nat
  {
    if component == 0 || format != Chroma420 then 0 else 1
  }

  /** getWidth(0) >> getComponentScaleX(component, format). */
  function ComponentWidth(cuWidth: nat, component: nat, format: ChromaFormat): nat
  {
    if ScaleX(component, format) == 1 then cuWidth / 2 else cuWidth
  }

  /** getHeight(0) >> getComponentScaleY(component, format). */
  function ComponentHeight(cuHeight: nat, component: nat, format: ChromaFormat): nat
  {
    if ScaleY(component, format) == 1 then cuHeight / 2 else cuHeight
  }

  /** One row of the copy: `width` samples from `srcPos` land at `dstPos`, nothing else changes. */
  method CopyRow(src: array<int>, srcPos: nat, dst: array<int>, dstPos: nat, width: nat)
    requires src != dst
    requires srcPos + width <= src.Length && dstPos + width <= dst.Length
    modifies dst
    ensures dst[..dstPos] == old(dst[..dstPos])
    ensures dst[dstPos..dstPos + width] == src[srcPos..srcPos + width]
    ensures dst[dstPos + width..] == old(dst[dstPos + width..])
  {
    var column := 0;
    while column < width
      invariant column <= width
      invariant dst[..dstPos] == old(dst[..dstPos])
      invariant dst[dstPos..dstPos + column] == src[srcPos..srcPos + column]
      invariant dst[dstPos + column..] == old(dst[dstPos + column..])
    {
      dst[dstPos + column] := src[srcPos + column];
      column := column + 1;
    }
  }

  /** The first width * height entries of `dst` are the window of `src`, packed row after row. */
  ghost predicate Packed(src: seq<int>, stride: nat, width: nat, height: nat, dst: seq<int>)
  {
    WindowFits(|src|, stride, 0, 0, width, height) && width * height <= |dst| &&
    dst[..width * height] == Window(src, stride, 0, 0, width, height)
  }

  /** In a packed buffer, sample `column` of line `line` sits at line * width + column. */
  lemma PackedSampleAt(src: seq<int>, stride: nat, width: nat, height: nat, dst: seq<int>, line: nat, column: nat)
    requires Packed(src, stride, width, height, dst)
    requires line < height && column < width
    ensures line * width + column < |dst| && line * stride + column < |src|
    ensures dst[line * width + column] == src[line * stride + column]
  {
    WindowRowFits(|src|, stride, 0, 0, width, height, line);
    WindowAt(src, stride, 0, 0, width, height, line, column);
  }

  /** Packing one more row: the next row of the source is appended at line * width. */
  lemma PackNextRow(src: seq<int>, stride: nat, width: nat, height: nat, line: nat)
    requires WindowFits(|src|, stride, 0, 0, width, height) && 0 < width && line < height
    ensures line * stride + width <= |src| && (line + 1) * stride == line * stride + stride
    ensures (line + 1) * width == line * width + width <= width * height
    ensures WindowFits(|src|, stride, 0, 0, width, line + 1)
    ensures Window(src, stride, 0, 0, width, line + 1) ==
      Window(src, stride, 0, 0, width, line) + src[line * stride..line * stride + width]
  {
    MulMonotone(line + 1, height, width);
    WindowPrefixFits(|src|, stride, 0, 0, width, height, line + 1);
    WindowLastRow(src, stride, 0, 0, width, line + 1);
  }

  /** Once the next row of the source is copied to line * width, one more row is packed. */
  lemma PackedStep(src: seq<int>, stride: nat, width: nat, line: nat, before: seq<int>, after: seq<int>)
    requires WindowFits(|src|, stride, 0, 0, width, line + 1) && 0 < width
    requires Packed(src, stride, width, line, before)
    requires line * stride + width <= |src| && (line + 1) * width == line * width + width <= |after|
    requires after[..line * width] == before[..line * width]
    requires after[line * width..line * width + width] == src[line * stride..line * stride + width]
    requires Window(src, stride, 0, 0, width, line + 1) ==
      Window(src, stride, 0, 0, width, line) + src[line * stride..line * stride + width]
    ensures Packed(src, stride, width, line + 1, after)
  {
    assert after[..line * width + width] == after[..line * width] + after[line * width..line * width + width];
  }

  /**
   * One pass of the line loop of xFillPCMBuffer: line `line` of the source,
   * at sourcePos == line * stride, is copied to destinationPos == line * width.
   */
  method FillLine(src: array<int>, stride: nat, width: nat, height: nat, dst: array<int>,
                  ghost line: nat, sourcePos: nat, destinationPos: nat)
    requires src != dst && 0 < width && line < height
    requires WindowFits(src.Length, stride, 0, 0, width, height) && width * height <= dst.Length
    requires sourcePos == line * stride && destinationPos == line * width
    requires Packed(src[..], stride, width, line, dst[..])
    modifies dst
    ensures Packed(src[..], stride, width, line + 1, dst[..])
    ensures dst[destinationPos + width..] == old(dst[destinationPos + width..])
    ensures (line + 1) * stride == sourcePos + stride
    ensures (line + 1) * width == destinationPos + width <= width * height
  {
    PackNextRow(src[..], stride, width, height, line);
    ghost var before := dst[..];
    CopyRow(src, sourcePos, dst, destinationPos, width);
    PackedStep(src[..], stride, width, line, before, dst[..]);
  }

  /**
   * The copy of one component: the `height` rows of `width` samples of the
   * original buffer (row stride `stride`, the CU at its start) are packed
   * into the first width * height entries of the PCM buffer; the rest of
   * the PCM buffer is left as it was.
   */
  method FillComponent(src: array<int>, stride: nat, width: nat, height: nat, dst: array<int>)
    requires src != dst && 0 < width
    requires WindowFits(src.Length, stride, 0, 0, width, height)
    requires width * height <= dst.Length
    modifies dst
    ensures Packed(src[..], stride, width, height, dst[..])
    ensures dst[width * height..] == old(dst[width * height..])
  {
    var sourcePos := 0;
    var destinationPos := 0;
    var line := 0;
    while line < height
      invariant line <= height
      invariant sourcePos == line * stride && destinationPos == line * width <= width * height
      invariant Packed(src[..], stride, width, line, dst[..])
      invariant dst[destinationPos..] == old(dst[destinationPos..])
    {
      FillLine(src, stride, width, height, dst, line, sourcePos, destinationPos);
      sourcePos := sourcePos + stride;
      destinationPos := destinationPos + width;
      line := line + 1;
    }
  }

  /** The samples of component `c` of a CU in this format. */
  function Area(cuWidth: nat, cuHeight: nat, c: nat, format: ChromaFormat): nat
  {
    ComponentWidth(cuWidth, c, format) * ComponentHeight(cuHeight, c, format)
  }

  /** Component `c` of `org` is packed into `pcm`. */
  ghost predicate ComponentPacked(format: ChromaFormat, cuWidth: nat, cuHeight: nat,
                                  org: seq<int>, stride: nat, pcm: seq<int>, c: nat)
  {
    Packed(org, stride, ComponentWidth(cuWidth, c, format), ComponentHeight(cuHeight, c, format), pcm)
  }

  /**
   * xFillPCMBuffer: every valid component of the chroma format is copied,
   * with its width and height scaled down for chroma; the PCM buffers of
   * components the format does not have are left as they were.
   */
  method FillPcmBuffer(format: ChromaFormat, cuWidth: nat, cuHeight: nat,
                       org: seq<array<int>>, strides: seq<nat>, pcm: seq<array<int>>)
    requires |org| == 3 && |strides| == 3 && |pcm| == 3
    requires pcm[0] != pcm[1] && pcm[0] != pcm[2] && pcm[1] != pcm[2]
    requires forall i, j :: 0 <= i < 3 && 0 <= j < 3 ==> pcm[i] != org[j]
    requires forall c :: 0 <= c < NumberValidComponents(format) ==>
      0 < ComponentWidth(cuWidth, c, format) && Area(cuWidth, cuHeight, c, format) <= pcm[c].Length &&
      WindowFits(org[c].Length, strides[c], 0, 0, ComponentWidth(cuWidth, c, format), ComponentHeight(cuHeight, c, format))
    modifies pcm[0], pcm[1], pcm[2]
    ensures forall c :: 0 <= c < NumberValidComponents(format) ==>
      ComponentPacked(format, cuWidth, cuHeight, org[c][..], strides[c], pcm[c][..], c) &&
      pcm[c][Area(cuWidth, cuHeight, c, format)..] == old(pcm[c][Area(cuWidth, cuHeight, c, format)..])
    ensures forall c :: NumberValidComponents(format) <= c < 3 ==> pcm[c][..] == old(pcm[c][..])
  {
    var componentIndex := 0;
    while componentIndex < NumberValidComponents(format)
      invariant componentIndex <= NumberValidComponents(format)
      invariant forall c :: 0 <= c < componentIndex ==>
        ComponentPacked(format, cuWidth, cuHeight, org[c][..], strides[c], pcm[c][..], c) &&
        pcm[c][Area(cuWidth, cuHeight, c, format)..] == old(pcm[c][Area(cuWidth, cuHeight, c, format)..])
      invariant forall c :: componentIndex <= c < 3 ==> pcm[c][..] == old(pcm[c][..])
    {
      var width := ComponentWidth(cuWidth, componentIndex, format);
      var height := ComponentHeight(cuHeight, componentIndex, format);
      FillComponent(org[componentIndex], strides[componentIndex], width, height, pcm[componentIndex]);
      componentIndex := componentIndex + 1;
    }
  }
}
