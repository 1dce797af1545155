/** Scaling a YUY2 picture by picking whole macropixels. */
module PixelScale {
  import opened Bytes
  import opened PixelMaps

  /** Where the i-th sample is taken, every step-th. */
  function Spread(i: nat, step: nat): nat {
    i * step
  }

  lemma SpreadGrows(i: nat, step: nat)
    ensures Spread(0, step) == 0 && Spread(i + 1, step) == Spread(i, step) + step
  {
  }

  /** The i-th of n samples spread over m is inside, and so is all of its step. */
  lemma SpreadFits(i: nat, n: nat, m: nat, step: nat)
    requires i < n && step == m / n
    ensures Spread(i, step) + step <= m
  {
    RowFits(step, i, n);
    assert m == n * step + m % n;
  }

  ghost predicate SameMacropixel(dst: seq<byte>, to: nat, src: seq<byte>, from: nat) {
    && to + 4 <= |dst| && from + 4 <= |src|
    && dst[to] == src[from] && dst[to + 1] == src[from + 1]
    && dst[to + 2] == src[from + 2] && dst[to + 3] == src[from + 3]
  }

  /** Row y of the scaled picture: the macropixels are those of row y * sy of the source, every sx-th. */
  ghost predicate ScaledRow(src: seq<byte>, dst: seq<byte>, sw: nat, dw: nat, sx: nat, sy: nat, y: nat) {
    forall i: nat | i < dw / 2 ::
      SameMacropixel(dst, Rows(2 * dw, y) + 4 * i, src, Rows(2 * sw, Spread(y, sy)) + 4 * Spread(i, sx))
  }

  method CopyMacropixel(src: array<byte>, srcPos: nat, dst: array<byte>, dstPos: nat)
    requires src != dst && srcPos + 4 <= src.Length && dstPos + 4 <= dst.Length
    modifies dst
    ensures forall k | 0 <= k < dst.Length && !(dstPos <= k < dstPos + 4) :: dst[k] == old(dst[k])
    ensures SameMacropixel(dst[..], dstPos, src[..], srcPos)
  {
    dst[dstPos] := src[srcPos];
    dst[dstPos + 1] := src[srcPos + 1];
    dst[dstPos + 2] := src[srcPos + 2];
    dst[dstPos + 3] := src[srcPos + 3];
  }

  lemma MacropixelStays(src: seq<byte>, before: seq<byte>, after: seq<byte>, to: nat, from: nat, end: nat)
    requires SameMacropixel(before, to, src, from) && |before| == |after| && to + 4 <= end
    requires forall k | 0 <= k < |after| && k < end :: before[k] == after[k]
    ensures SameMacropixel(after, to, src, from)
  {
  }

  method CopyScaledRow(src: array<byte>, srcStart: nat, dst: array<byte>, dstStart: nat, dstWidth: nat, stepX: nat)
    requires src != dst && dstWidth % 2 == 0 && dstStart + 2 * dstWidth <= dst.Length
    requires forall i: nat | i < dstWidth / 2 :: srcStart + 4 * Spread(i, stepX) + 4 <= src.Length
    modifies dst
    ensures forall k | 0 <= k < dst.Length && !(dstStart <= k < dstStart + 2 * dstWidth) :: dst[k] == old(dst[k])
    ensures forall i: nat | i < dstWidth / 2 ::
      SameMacropixel(dst[..], dstStart + 4 * i, src[..], srcStart + 4 * Spread(i, stepX))
  {
    hide SameMacropixel, Spread;
    var x: nat, dstPos: nat := 0, dstStart;
    while x < dstWidth
      invariant x % 2 == 0 && x <= dstWidth && dstPos == dstStart + 2 * x
      invariant forall k | 0 <= k < dst.Length && !(dstStart <= k < dstPos) :: dst[k] == old(dst[k])
      invariant forall i: nat | i < x / 2 ::
        SameMacropixel(dst[..], dstStart + 4 * i, src[..], srcStart + 4 * Spread(i, stepX))
    {
      ghost var n, before := x / 2, dst[..];
      var srcPos := srcStart + Spread(x, stepX * 2);
      PairStart(x, stepX);
      CopyMacropixel(src, srcPos, dst, dstPos);
      ghost var after := dst[..];
      forall i: nat | i < n
        ensures SameMacropixel(after, dstStart + 4 * i, src[..], srcStart + 4 * Spread(i, stepX))
      {
        MacropixelStays(src[..], before, after, dstStart + 4 * i, srcStart + 4 * Spread(i, stepX), dstPos);
      }
      dstPos := dstPos + 4;
      x := x + 2;
    }
  }

  /** x times twice the step, for an even x. */
  lemma PairStart(x: nat, step: nat)
    requires x % 2 == 0
    ensures Spread(x, step * 2) == 4 * Spread(x / 2, step)
  {
    var n := x / 2;
    assert x == 2 * n && (2 * n) * (step * 2) == 4 * (n * step);
  }

  ghost predicate ScaledRows(src: seq<byte>, dst: seq<byte>, sw: nat, dw: nat, sx: nat, sy: nat, rows: nat) {
    forall y: nat | y < rows :: ScaledRow(src, dst, sw, dw, sx, sy, y)
  }

  /** One more row, next to those that are done. */
  method AddScaledRow(src: array<byte>, srcStart: nat, dst: array<byte>, dstStart: nat, dstWidth: nat, stepX: nat,
                      ghost sw: nat, ghost sy: nat, ghost y: nat)
    requires src != dst && dstWidth % 2 == 0 && dstStart + 2 * dstWidth <= dst.Length
    requires srcStart == Rows(2 * sw, Spread(y, sy)) && dstStart == Rows(2 * dstWidth, y)
    requires forall i: nat | i < dstWidth / 2 :: srcStart + 4 * Spread(i, stepX) + 4 <= src.Length
    requires ScaledRows(src[..], dst[..], sw, dstWidth, stepX, sy, y)
    modifies dst
    ensures ScaledRows(src[..], dst[..], sw, dstWidth, stepX, sy, y + 1)
    ensures forall k | dstStart + 2 * dstWidth <= k < dst.Length :: dst[k] == old(dst[k])
  {
    ghost var before := dst[..];
    hide Rows, SameMacropixel, Spread;
    CopyScaledRow(src, srcStart, dst, dstStart, dstWidth, stepX);
    ghost var after := dst[..];
    forall k: nat | k <= y
      ensures ScaledRow(src[..], after, sw, dstWidth, stepX, sy, k)
    {
      if k < y {
        RowFits(2 * dstWidth, k, y);
        ScaledRowStays(src[..], before, after, sw, dstWidth, stepX, sy, k, dstStart);
      }
    }
  }

  lemma ScaledRowStays(src: seq<byte>, before: seq<byte>, after: seq<byte>,
                       sw: nat, dw: nat, sx: nat, sy: nat, y: nat, end: nat)
    requires ScaledRow(src, before, sw, dw, sx, sy, y)
    requires |before| == |after| && Rows(2 * dw, y) + 2 * dw <= end
    requires forall k | 0 <= k < |after| && k < end :: before[k] == after[k]
    ensures ScaledRow(src, after, sw, dw, sx, sy, y)
  {
    hide SameMacropixel, Spread, Rows;
    forall i: nat | i < dw / 2
      ensures SameMacropixel(after, Rows(2 * dw, y) + 4 * i, src, Rows(2 * sw, Spread(y, sy)) + 4 * Spread(i, sx))
    {
      MacropixelStays(src, before, after, Rows(2 * dw, y) + 4 * i, Rows(2 * sw, Spread(y, sy)) + 4 * Spread(i, sx), end);
    }
  }

  // --------------------------------------------------------------------------------- pixel by pixel

  ghost predicate SameByte(dst: seq<byte>, to: nat, src: seq<byte>, from: nat) {
    to < |dst| && from < |src| && dst[to] == src[from]
  }

  /** Pixel (x, y) of one YUY2 picture has luma and chroma of pixel (x', y') of another. */
  ghost predicate SamePixel(dst: seq<byte>, dw: nat, x: nat, y: nat, src: seq<byte>, sw: nat, x': nat, y': nat) {
    && SameByte(dst, At(Yuy2(dw).y, x, y), src, At(Yuy2(sw).y, x', y'))
    && SameByte(dst, At(Yuy2(dw).u, x / 2, y), src, At(Yuy2(sw).u, x' / 2, y'))
    && SameByte(dst, At(Yuy2(dw).v, x / 2, y), src, At(Yuy2(sw).v, x' / 2, y'))
  }

  /** The column a pixel is taken from: the pixel of the same parity in every step-th pair. */
  function Column(x: nat, step: nat): nat {
    2 * Spread(x / 2, step) + x % 2
  }

  /** Every pixel is one of the source, in every sy-th row and every sx-th pair, and these are inside it. */
  ghost predicate ScaledFrom(dst: seq<byte>, dw: nat, dh: nat, src: seq<byte>, sw: nat, sh: nat, sx: nat, sy: nat) {
    forall x: nat, y: nat | x < dw && y < dh ::
      && Column(x, sx) < sw && Spread(y, sy) < sh
      && SamePixel(dst, dw, x, y, src, sw, Column(x, sx), Spread(y, sy))
  }

  lemma MacropixelPixels(dst: seq<byte>, dw: nat, src: seq<byte>, sw: nat, x: nat, y: nat, i: nat, row: nat)
    requires SameMacropixel(dst, Rows(2 * dw, y) + 4 * (x / 2), src, Rows(2 * sw, row) + 4 * i)
    ensures SamePixel(dst, dw, x, y, src, sw, 2 * i + x % 2, row)
  {
    hide Rows;
    assert (2 * i + x % 2) / 2 == i;
  }

  lemma RowsScale(dst: seq<byte>, dw: nat, dh: nat, src: seq<byte>, sw: nat, sh: nat, sx: nat, sy: nat)
    requires dw % 2 == 0 && ScaledRows(src, dst, sw, dw, sx, sy, dh)
    requires forall i: nat | i < dw / 2 :: 2 * Spread(i, sx) + 2 <= sw
    requires forall y: nat | y < dh :: Spread(y, sy) < sh
    ensures ScaledFrom(dst, dw, dh, src, sw, sh, sx, sy)
  {
    hide Spread, SameMacropixel, SamePixel, Rows;
    forall x: nat, y: nat | x < dw && y < dh
      ensures Column(x, sx) < sw && Spread(y, sy) < sh
      ensures SamePixel(dst, dw, x, y, src, sw, Column(x, sx), Spread(y, sy))
    {
      assert 2 * Spread(x / 2, sx) + 2 <= sw;
      assert ScaledRow(src, dst, sw, dw, sx, sy, y);
      MacropixelPixels(dst, dw, src, sw, x, y, Spread(x / 2, sx), Spread(y, sy));
    }
  }

  /** The steps the scaling takes stay inside the source, wider or narrower, higher or lower. */
  lemma StepsFit(sw: nat, sh: nat, dw: nat, dh: nat, sx: nat, sy: nat)
    requires 0 < dw && 0 < dh && 2 <= sw && 0 < sh && dw % 2 == 0
    requires sx == sw / dw && sy == sh / dh
    ensures forall i: nat | i < dw / 2 :: 2 * Spread(i, sx) + 2 <= sw
    ensures forall y: nat | y < dh :: Spread(y, sy) < sh
  {
    forall i: nat | i < dw / 2
      ensures 2 * Spread(i, sx) + 2 <= sw
    {
      SpreadFits(2 * i + 1, dw, sw, sx);
      SpreadGrows(2 * i, sx);
      SpreadTwice(i, sx);
      hide Spread;
      if sx == 0 {
        SpreadZero(i);
      }
    }
    forall y: nat | y < dh
      ensures Spread(y, sy) < sh
    {
      SpreadFits(y, dh, sh, sy);
      hide Spread;
      if sy == 0 {
        SpreadZero(y);
      }
    }
  }

  lemma SpreadTwice(i: nat, step: nat)
    ensures Spread(2 * i, step) == 2 * Spread(i, step)
  {
    assert (2 * i) * step == 2 * (i * step);
  }

  lemma SpreadZero(i: nat)
    ensures Spread(i, 0) == 0
  {
  }

  /** Where row y starts on either side. */
  lemma RowStarts(sw: nat, sh: nat, dw: nat, dh: nat, sx: nat, sy: nat, y: nat)
    requires y < dh && Spread(y, sy) < sh
    requires forall i: nat | i < dw / 2 :: 2 * Spread(i, sx) + 2 <= sw
    ensures Rows(2 * dw, y + 1) == Rows(2 * dw, y) + 2 * dw <= Rows(2 * dw, dh)
    ensures forall i: nat | i < dw / 2 :: Rows(2 * sw, Spread(y, sy)) + 4 * Spread(i, sx) + 4 <= Rows(2 * sw, sh)
  {
    NextRow(2 * dw, y);
    RowFits(2 * dw, y, dh);
    RowFits(2 * sw, Spread(y, sy), sh);
    hide Rows, Spread;
  }

  /** Any even picture that is not empty, from any source with a macropixel; the source may be odd and need
      not be larger. */
  method ScaleDownYuv422(src: array<byte>, srcWidth: nat, srcHeight: nat,
                         dst: array<byte>, dstWidth: nat, dstHeight: nat)
    returns (ok: bool)
    requires src != dst
    requires dstWidth % 2 == 0 && dstHeight % 2 == 0 ==>
      && 0 < dstWidth && 0 < dstHeight && 2 <= srcWidth && 0 < srcHeight
      && Rows(2 * srcWidth, srcHeight) <= src.Length && Rows(2 * dstWidth, dstHeight) <= dst.Length
    modifies dst
    ensures ok == (dstWidth % 2 == 0 && dstHeight % 2 == 0)
    ensures !ok ==> dst[..] == old(dst[..])
    ensures ok ==> forall k | Rows(2 * dstWidth, dstHeight) <= k < dst.Length :: dst[k] == old(dst[k])
    ensures ok ==> ScaledFrom(dst[..], dstWidth, dstHeight, src[..], srcWidth, srcHeight,
                              srcWidth / dstWidth, srcHeight / dstHeight)
  {
    if dstWidth % 2 != 0 || dstHeight % 2 != 0 {
      return false;
    }
    var stepX, stepY := srcWidth / dstWidth, srcHeight / dstHeight;
    StepsFit(srcWidth, srcHeight, dstWidth, dstHeight, stepX, stepY);
    NextRow(2 * dstWidth, 0);
    assert ScaledRows(src[..], dst[..], srcWidth, dstWidth, stepX, stepY, 0);
    hide Rows, Spread, ScaledRows;
    var dstPos, y: nat := 0, 0;
    while y < dstHeight
      invariant y <= dstHeight && dstPos == Rows(2 * dstWidth, y)
      invariant forall k | Rows(2 * dstWidth, dstHeight) <= k < dst.Length :: dst[k] == old(dst[k])
      invariant ScaledRows(src[..], dst[..], srcWidth, dstWidth, stepX, stepY, y)
    {
      var srcStart := Rows(2 * srcWidth, Spread(y, stepY));
      RowStarts(srcWidth, srcHeight, dstWidth, dstHeight, stepX, stepY, y);
      AddScaledRow(src, srcStart, dst, dstPos, dstWidth, stepX, srcWidth, stepY, y);
      dstPos := dstPos + 2 * dstWidth;
      y := y + 1;
    }
    RowsScale(dst[..], dstWidth, dstHeight, src[..], srcWidth, srcHeight, stepX, stepY);
    ok := true;
  }

  // ------------------------------------------------------------------------------------- identity

  lemma RowOf(n: nat, rows: nat, k: nat) returns (y: nat, x: nat)
    requires k < Rows(n, rows)
    ensures y < rows && x < n && k == Rows(n, y) + x
  {
    assert n > 0;
    y, x := k / n, k % n;
    assert k == n * y + x;
    if y >= rows {
      RowFits(n, rows, y + 1);
    }
  }

  lemma SameBytes(dst: seq<byte>, src: seq<byte>, w: nat, h: nat, y: nat, x: nat)
    requires w % 2 == 0 && ScaledFrom(dst, w, h, src, w, h, 1, 1) && y < h && x < 2 * w
    ensures SameByte(dst, Rows(2 * w, y) + x, src, Rows(2 * w, y) + x)
  {
    hide Rows, Spread, SamePixel;
    var px := x / 2;
    SpreadOne(px / 2);
    SpreadOne(y);
    assert Column(px, 1) == px;
    assert SamePixel(dst, w, px, y, src, w, px, y);
    PixelBytes(dst, src, w, y, x);
  }

  lemma PixelBytes(dst: seq<byte>, src: seq<byte>, w: nat, y: nat, x: nat)
    requires SamePixel(dst, w, x / 2, y, src, w, x / 2, y)
    ensures SameByte(dst, Rows(2 * w, y) + x, src, Rows(2 * w, y) + x)
  {
    hide Rows, SameByte;
    assert x == 4 * (x / 2 / 2) + x % 4;
    if x % 2 == 0 {
      assert At(Yuy2(w).y, x / 2, y) == Rows(2 * w, y) + x;
    } else if x % 4 == 1 {
      assert At(Yuy2(w).u, x / 2 / 2, y) == Rows(2 * w, y) + x;
    } else {
      assert At(Yuy2(w).v, x / 2 / 2, y) == Rows(2 * w, y) + x;
    }
  }

  lemma SpreadOne(i: nat)
    ensures Spread(i, 1) == i
  {
  }

  /** A picture scaled to its own size is the picture, byte by byte. */
  lemma SameSizeIsIdentity(dst: seq<byte>, src: seq<byte>, w: nat, h: nat)
    requires 0 < w && 0 < h && w % 2 == 0 && Rows(2 * w, h) <= |dst| && Rows(2 * w, h) <= |src|
    requires ScaledFrom(dst, w, h, src, w, h, w / w, h / h)
    ensures dst[..Rows(2 * w, h)] == src[..Rows(2 * w, h)]
  {
    assert w / w == 1 && h / h == 1;
    hide ScaledFrom;
    forall k | 0 <= k < Rows(2 * w, h)
      ensures dst[k] == src[k]
    {
      var y, x := RowOf(2 * w, h, k);
      hide Rows;
      SameBytes(dst, src, w, h, y, x);
    }
  }
}
