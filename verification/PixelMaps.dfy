/** The camera's pixel layouts, and the loops that turn one into another. A layout says where in a buffer the
    samples of a picture are: three planes, each with a start, a distance between rows and one between
    samples. */
module PixelMaps {
  import opened Bytes

  // ------------------------------------------------------------------------------------- planes

  /** The cells in m rows of n. */
  function Rows(n: nat, m: nat): nat {
    m * n
  }

  lemma NextRow(n: nat, m: nat)
    ensures Rows(n, 0) == 0 && Rows(n, m + 1) == Rows(n, m) + n
  {
  }

  lemma RowFits(n: nat, m: nat, rows: nat)
    requires m < rows
    ensures Rows(n, m) + n <= Rows(n, rows)
  {
    var rest := rows - m - 1;
    assert rest * n >= 0;
    assert rows * n == (m + 1 + rest) * n == (m + 1) * n + rest * n;
  }

  lemma DoubleRows(n: nat, m: nat)
    ensures Rows(2 * n, m) == 2 * Rows(n, m) == Rows(n, 2 * m)
  {
    assert m * (2 * n) == 2 * (m * n) == (2 * m) * n;
  }

  datatype Plane = Plane(start: nat, row: nat, step: nat)

  /** Where sample (x, y) of a plane is. */
  function At(p: Plane, x: nat, y: nat): nat {
    p.start + Rows(p.row, y) + p.step * x
  }

  ghost predicate SameSample(dst: seq<byte>, to: Plane, src: seq<byte>, from: Plane, x: nat, y: nat) {
    && At(to, x, y) < |dst| && At(from, x, y) < |src|
    && dst[At(to, x, y)] == src[At(from, x, y)]
  }

  ghost predicate SameRow(dst: seq<byte>, to: Plane, src: seq<byte>, from: Plane, w: nat, y: nat) {
    forall x: nat | x < w :: SameSample(dst, to, src, from, x, y)
  }

  /** Both buffers hold the same w times h samples in these planes. */
  ghost predicate SamePlane(dst: seq<byte>, to: Plane, src: seq<byte>, from: Plane, w: nat, h: nat) {
    forall y: nat | y < h :: SameRow(dst, to, src, from, w, y)
  }

  /** A row stays when nothing is written where it lies. */
  lemma RowStays(before: seq<byte>, after: seq<byte>, to: Plane, src: seq<byte>, from: Plane,
                 w: nat, y: nat, lo: nat, hi: nat)
    requires SameRow(before, to, src, from, w, y) && |before| == |after|
    requires forall x: nat | x < w :: At(to, x, y) < lo || hi <= At(to, x, y)
    requires forall k | 0 <= k < |after| && !(lo <= k < hi) :: before[k] == after[k]
    ensures SameRow(after, to, src, from, w, y)
  {
    hide At;
    forall x: nat | x < w
      ensures SameSample(after, to, src, from, x, y)
    {
      assert SameSample(before, to, src, from, x, y);
      assert At(to, x, y) < lo || hi <= At(to, x, y);
    }
  }

  /** The rows of a plane lie one after the other. */
  lemma RowsApart(p: Plane, w: nat, y: nat, y': nat)
    requires y < y' && (w > 0 ==> p.step * (w - 1) < p.row)
    ensures forall x: nat | x < w :: At(p, x, y) < p.start + Rows(p.row, y')
  {
    RowFits(p.row, y, y');
    hide Rows;
    forall x: nat | x < w
      ensures At(p, x, y) < p.start + Rows(p.row, y')
    {
      StepsGrow(p.step, x, w - 1);
    }
  }

  lemma StepsGrow(step: nat, a: nat, b: nat)
    requires a <= b
    ensures step * a <= step * b
  {
    assert step * b == step * a + step * (b - a);
    assert step * (b - a) >= 0;
  }

  // ------------------------------------------------------------------------------------ layouts

  datatype Layout = Layout(y: Plane, u: Plane, v: Plane)

  /** The same picture in two layouts: w times h pixels, cw times ch samples of either chroma. */
  ghost predicate SamePicture(dst: seq<byte>, to: Layout, src: seq<byte>, from: Layout,
                              w: nat, h: nat, cw: nat, ch: nat) {
    && SamePlane(dst, to.y, src, from.y, w, h)
    && SamePlane(dst, to.u, src, from.u, cw, ch)
    && SamePlane(dst, to.v, src, from.v, cw, ch)
  }

  /** Rows of Y U Y V; chroma for every pair of pixels in every row. */
  function Yuy2(w: nat): Layout {
    Layout(Plane(0, 2 * w, 2), Plane(1, 2 * w, 4), Plane(3, 2 * w, 4))
  }

  /** The same, with the chroma of every other row only. */
  function Yuy2Halved(w: nat): Layout {
    Yuy2(w).(u := Plane(1, 4 * w, 4), v := Plane(3, 4 * w, 4))
  }

  /** Luma rows, then rows of V U. */
  function Nv21(w: nat, h: nat): Layout {
    var size := Rows(w, h);
    Layout(Plane(0, w, 1), Plane(size + 1, w, 2), Plane(size, w, 2))
  }

  /** Luma rows, U rows, V rows. */
  function Planar(w: nat, h: nat): Layout {
    var size, quarter := Rows(w, h), Rows(w / 2, h / 2);
    Layout(Plane(0, w, 1), Plane(size, w / 2, 1), Plane(size + quarter, w / 2, 1))
  }

  /** YV12 with rows of stride bytes: luma rows, V rows, U rows. */
  function Yv12(stride: nat, h: nat): Layout {
    var size := Rows(stride, h);
    Layout(Plane(0, stride, 1), Plane(size + size / 4, stride / 2, 1), Plane(size, stride / 2, 1))
  }

  // ---------------------------------------------------------------------------------- YUY2toNV21

  /** One row of the first loop: every other byte is a luma sample. */
  method CopyLumaRow(src: array<byte>, srcPos: nat, dst: array<byte>, dstPos: nat, w: nat)
    requires src != dst && srcPos + 2 * w <= src.Length && dstPos + w <= dst.Length
    modifies dst
    ensures forall j: nat | j < w :: dst[dstPos + j] == src[srcPos + 2 * j]
    ensures forall k | 0 <= k < dst.Length && !(dstPos <= k < dstPos + w) :: dst[k] == old(dst[k])
  {
    var x, pos := 0, dstPos;
    while x < w * 2
      invariant x % 2 == 0 && x <= 2 * w && pos == dstPos + x / 2
      invariant forall j: nat | j < x / 2 :: dst[dstPos + j] == src[srcPos + 2 * j]
      invariant forall k | 0 <= k < dst.Length && !(dstPos <= k < pos) :: dst[k] == old(dst[k])
    {
      dst[pos] := src[srcPos + x];
      pos := pos + 1;
      x := x + 2;
    }
  }

  /** The samples of one row, found at their places. */
  lemma RowDone(dst: seq<byte>, to: Plane, src: seq<byte>, from: Plane, w: nat, y: nat, dstPos: nat, srcPos: nat)
    requires dstPos == to.start + Rows(to.row, y) && srcPos == from.start + Rows(from.row, y)
    requires forall x: nat | x < w ::
      && dstPos + to.step * x < |dst| && srcPos + from.step * x < |src|
      && dst[dstPos + to.step * x] == src[srcPos + from.step * x]
    ensures SameRow(dst, to, src, from, w, y)
  {
    hide Rows;
  }

  /** One more row of luma, next to those that are done. */
  method AddLumaRow(src: array<byte>, srcPos: nat, dst: array<byte>, dstPos: nat, w: nat, ghost y: nat)
    requires src != dst && srcPos + 2 * w <= src.Length && dstPos + w <= dst.Length
    requires dstPos == Rows(w, y) && srcPos == Rows(2 * w, y)
    requires SamePlane(dst[..], Plane(0, w, 1), src[..], Plane(0, 2 * w, 2), w, y)
    modifies dst
    ensures SamePlane(dst[..], Plane(0, w, 1), src[..], Plane(0, 2 * w, 2), w, y + 1)
    ensures forall k | dstPos + w <= k < dst.Length :: dst[k] == old(dst[k])
  {
    hide Rows, SameRow;
    ghost var before, to, from := dst[..], Plane(0, w, 1), Plane(0, 2 * w, 2);
    CopyLumaRow(src, srcPos, dst, dstPos, w);
    ghost var after := dst[..];
    forall i: nat | i <= y
      ensures SameRow(after, to, src[..], from, w, i)
    {
      if i < y {
        RowsApart(to, w, i, y);
        RowStays(before, after, to, src[..], from, w, i, dstPos, dstPos + w);
      } else {
        RowDone(after, to, src[..], from, w, y, dstPos, srcPos);
      }
    }
  }

  /** The first loop. */
  method CopyLuma(src: array<byte>, dst: array<byte>, w: nat, h: nat)
    requires src != dst && 2 * Rows(w, h) <= src.Length && Rows(w, h) <= dst.Length
    modifies dst
    ensures SamePlane(dst[..], Plane(0, w, 1), src[..], Plane(0, 2 * w, 2), w, h)
    ensures forall k | Rows(w, h) <= k < dst.Length :: dst[k] == old(dst[k])
  {
    hide SamePlane, Rows;
    var dstPos: nat, y: nat := 0, 0;
    NextRow(w, 0);
    NoRows(dst[..], Plane(0, w, 1), src[..], Plane(0, 2 * w, 2), w);
    while y < h
      invariant y <= h && dstPos == Rows(w, y)
      invariant SamePlane(dst[..], Plane(0, w, 1), src[..], Plane(0, 2 * w, 2), w, y)
      invariant forall k | Rows(w, h) <= k < dst.Length :: dst[k] == old(dst[k])
    {
      var srcStart := Rows(w * 2, y);
      RowFits(w, y, h);
      NextRow(w, y);
      DoubleRows(w, y);
      AddLumaRow(src, srcStart, dst, dstPos, w, y);
      dstPos := dstPos + w;
      y := y + 1;
    }
  }

  lemma NoRows(dst: seq<byte>, to: Plane, src: seq<byte>, from: Plane, w: nat)
    ensures SamePlane(dst, to, src, from, w, 0)
  {
  }

  /** One row of the second loop: the chroma of one row of pairs, V before U. */
  method CopyChromaRow(src: array<byte>, srcPos: nat, dst: array<byte>, dstPos: nat, w: nat)
    requires src != dst && w % 2 == 0 && srcPos + 2 * w <= src.Length && dstPos + w <= dst.Length
    modifies dst
    ensures forall k | 0 <= k < dst.Length && !(dstPos <= k < dstPos + w) :: dst[k] == old(dst[k])
    ensures forall j: nat | j < w / 2 ::
      dst[dstPos + 2 * j] == src[srcPos + 4 * j + 3] && dst[dstPos + 1 + 2 * j] == src[srcPos + 1 + 4 * j]
  {
    var x, pos := 0, dstPos;
    while x < w * 2
      invariant x % 4 == 0 && x <= 2 * w && pos == dstPos + x / 2
      invariant forall k | 0 <= k < dst.Length && !(dstPos <= k < pos) :: dst[k] == old(dst[k])
      invariant forall j: nat | j < x / 4 ::
        dst[dstPos + 2 * j] == src[srcPos + 4 * j + 3] && dst[dstPos + 1 + 2 * j] == src[srcPos + 1 + 4 * j]
    {
      CopyChromaPair(src, srcPos + x, dst, pos);
      pos := pos + 2;
      x := x + 4;
    }
  }

  method CopyChromaPair(src: array<byte>, srcPos: nat, dst: array<byte>, dstPos: nat)
    requires src != dst && srcPos + 4 <= src.Length && dstPos + 2 <= dst.Length
    modifies dst
    ensures forall k | 0 <= k < dst.Length && !(dstPos <= k < dstPos + 2) :: dst[k] == old(dst[k])
    ensures dst[dstPos] == src[srcPos + 3] && dst[dstPos + 1] == src[srcPos + 1]
  {
    dst[dstPos] := src[srcPos + 3];
    dst[dstPos + 1] := src[srcPos + 1];
  }

  /** The chroma planes of an NV21 buffer, behind base bytes of luma, against those of a YUY2 buffer. */
  ghost predicate ChromaRows(src: seq<byte>, dst: seq<byte>, base: nat, w: nat, rows: nat) {
    && SamePlane(dst, Plane(base + 1, w, 2), src, Plane(1, 4 * w, 4), w / 2, rows)
    && SamePlane(dst, Plane(base, w, 2), src, Plane(3, 4 * w, 4), w / 2, rows)
  }

  /** One more row, next to those that are done. */
  method AddChromaRow(src: array<byte>, srcPos: nat, dst: array<byte>, dstPos: nat, w: nat,
                      ghost base: nat, ghost m: nat)
    requires src != dst && w % 2 == 0 && srcPos + 2 * w <= src.Length && dstPos + w <= dst.Length
    requires srcPos == Rows(4 * w, m) && dstPos == base + Rows(w, m)
    requires ChromaRows(src[..], dst[..], base, w, m)
    modifies dst
    ensures ChromaRows(src[..], dst[..], base, w, m + 1)
    ensures forall k | 0 <= k < dst.Length && !(dstPos <= k < dstPos + w) :: dst[k] == old(dst[k])
  {
    hide Rows, SameRow;
    ghost var before := dst[..];
    CopyChromaRow(src, srcPos, dst, dstPos, w);
    ghost var after := dst[..];
    ChromaPlaneGrows(before, after, Plane(base + 1, w, 2), src[..], Plane(1, 4 * w, 4), w, m, dstPos, srcPos);
    ChromaPlaneGrows(before, after, Plane(base, w, 2), src[..], Plane(3, 4 * w, 4), w, m, dstPos, srcPos);
  }

  lemma ChromaPlaneGrows(before: seq<byte>, after: seq<byte>, to: Plane, src: seq<byte>, from: Plane,
                         w: nat, m: nat, dstPos: nat, srcPos: nat)
    requires |before| == |after| && w % 2 == 0 && to.row == w && to.step == 2 && from.step == 4
    requires dstPos <= to.start + Rows(w, m) <= dstPos + 1 && dstPos + w <= |after|
    requires from.start <= 3 && from.start + Rows(from.row, m) == srcPos + from.start && srcPos + 2 * w <= |src|
    requires SamePlane(before, to, src, from, w / 2, m)
    requires forall k | 0 <= k < |after| && !(dstPos <= k < dstPos + w) :: before[k] == after[k]
    requires forall j: nat | j < w / 2 ::
      after[to.start + Rows(w, m) + 2 * j] == src[srcPos + from.start + 4 * j]
    ensures SamePlane(after, to, src, from, w / 2, m + 1)
  {
    hide Rows, SameRow;
    forall i: nat | i <= m
      ensures SameRow(after, to, src, from, w / 2, i)
    {
      if i < m {
        EarlierRow(to, w, i, m, dstPos);
        RowStays(before, after, to, src, from, w / 2, i, dstPos, dstPos + w);
      } else {
        RowDone(after, to, src, from, w / 2, m, to.start + Rows(w, m), srcPos + from.start);
      }
    }
  }

  lemma EarlierRow(to: Plane, w: nat, i: nat, m: nat, dstPos: nat)
    requires i < m && w % 2 == 0 && to.row == w && to.step == 2 && to.start + Rows(w, m) <= dstPos + 1
    ensures forall x: nat | x < w / 2 :: At(to, x, i) < dstPos
  {
    RowFits(w, i, m);
    hide Rows;
  }

  /** The second loop: the chroma of every other row, behind base bytes of luma. */
  method CopyChroma(src: array<byte>, dst: array<byte>, w: nat, h: nat, base: nat)
    requires src != dst && w % 2 == 0
    requires 2 * Rows(w, h) <= src.Length && base + Rows(w, (h + 1) / 2) <= dst.Length
    modifies dst
    ensures forall k | 0 <= k < base || base + Rows(w, (h + 1) / 2) <= k < dst.Length :: dst[k] == old(dst[k])
    ensures ChromaRows(src[..], dst[..], base, w, (h + 1) / 2)
  {
    NextRow(w, 0);
    assert ChromaRows(src[..], dst[..], base, w, 0);
    hide ChromaRows, Rows;
    var dstPos, y: nat := base, 0;
    while y < h
      invariant y % 2 == 0 && y <= h + 1 && dstPos == base + Rows(w, y / 2)
      invariant forall k | 0 <= k < base || base + Rows(w, (h + 1) / 2) <= k < dst.Length :: dst[k] == old(dst[k])
      invariant ChromaRows(src[..], dst[..], base, w, y / 2)
    {
      var srcStart := Rows(w * 2, y);
      ChromaStarts(w, h, y);
      AddChromaRow(src, srcStart, dst, dstPos, w, base, y / 2);
      dstPos := dstPos + w;
      y := y + 2;
    }
  }

  /** Where the chroma of an even row is on either side. */
  lemma ChromaStarts(w: nat, h: nat, y: nat)
    requires y % 2 == 0 && y < h
    ensures Rows(w * 2, y) == 2 * Rows(w, y) == Rows(4 * w, y / 2) && 2 * Rows(w, y) + 2 * w <= 2 * Rows(w, h)
    ensures Rows(w, y / 2) + w == Rows(w, (y + 2) / 2) <= Rows(w, (h + 1) / 2)
  {
    var m := y / 2;
    DoubleRows(w, y);
    DoubleRows(2 * w, m);
    DoubleRows(w, m);
    RowFits(w, y, h);
    RowFits(w, m, (h + 1) / 2);
    NextRow(w, m);
    assert y == 2 * m && (y + 2) / 2 == m + 1;
  }

  /** For even widths and any height: every pixel keeps its luma and takes the chroma of its pair in the even
      row of its square, and nothing behind the picture is written. */
  method YUY2toNV21(src: array<byte>, dst: array<byte>, w: nat, h: nat)
    requires src != dst && w % 2 == 0
    requires 2 * Rows(w, h) <= src.Length && Rows(w, h) + Rows(w, (h + 1) / 2) <= dst.Length
    modifies dst
    ensures SamePicture(dst[..], Nv21(w, h), src[..], Yuy2Halved(w), w, h, w / 2, (h + 1) / 2)
    ensures forall k | Rows(w, h) + Rows(w, (h + 1) / 2) <= k < dst.Length :: dst[k] == old(dst[k])
  {
    CopyLuma(src, dst, w, h);
    ghost var before := dst[..];
    CopyChroma(src, dst, w, h, Rows(w, h));
    hide Rows, SameRow;
    PlaneStays(before, dst[..], Plane(0, w, 1), src[..], Plane(0, 2 * w, 2), w, h);
  }

  /** The luma stays when only what is behind it is written. */
  lemma PlaneStays(before: seq<byte>, after: seq<byte>, to: Plane, src: seq<byte>, from: Plane, w: nat, h: nat)
    requires SamePlane(before, to, src, from, w, h) && |before| == |after|
    requires w > 0 ==> to.step * (w - 1) < to.row
    requires forall k | 0 <= k < |after| && k < to.start + Rows(to.row, h) :: before[k] == after[k]
    ensures SamePlane(after, to, src, from, w, h)
  {
    hide Rows, SameRow;
    var end := to.start + Rows(to.row, h);
    forall y: nat | y < h
      ensures SameRow(after, to, src, from, w, y)
    {
      RowsApart(to, w, y, h);
      RowStays(before, after, to, src, from, w, y, end, if end < |after| then |after| else end);
    }
  }
}
