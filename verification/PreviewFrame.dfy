/** A preview frame: copied plane by plane into a window buffer with longer rows, then turned in place from
    planar into NV21. */
module PreviewFrame {
  import opened Bytes
  import opened PixelMaps

  /** memcpy of one row */
  method CopyRow(src: array<byte>, from: nat, dst: array<byte>, to: nat, n: nat)
    requires src != dst && from + n <= src.Length && to + n <= dst.Length
    modifies dst
    ensures forall k | 0 <= k < dst.Length ::
              dst[k] == if to <= k < to + n then src[from + k - to] else old(dst[k])
  {
    for j := 0 to n
      invariant forall k | 0 <= k < dst.Length ::
                  dst[k] == if to <= k < to + j then src[from + k - to] else old(dst[k])
    {
      dst[to + j] := src[from + j];
    }
  }

  /** One more row of a plane, next to the m that are copied. */
  method AddRow(src: array<byte>, srcPos: nat, dst: array<byte>, ptr: nat, width: nat,
                ghost to: Plane, ghost from: Plane, ghost m: nat)
    requires src != dst && srcPos + width <= src.Length && ptr + width <= dst.Length
    requires to.step == from.step == 1 && width <= to.row
    requires ptr == to.start + Rows(to.row, m) && srcPos == from.start + Rows(from.row, m)
    requires SamePlane(dst[..], to, src[..], from, width, m)
    modifies dst
    ensures SamePlane(dst[..], to, src[..], from, width, m + 1)
    ensures forall k | 0 <= k < dst.Length && !(ptr <= k < ptr + width) :: dst[k] == old(dst[k])
  {
    hide Rows, SameRow;
    ghost var before := dst[..];
    CopyRow(src, srcPos, dst, ptr, width);
    ghost var after := dst[..];
    forall i: nat | i <= m
      ensures SameRow(after, to, src[..], from, width, i)
    {
      if i < m {
        RowsApart(to, width, i, m);
        RowStays(before, after, to, src[..], from, width, i, ptr, ptr + width);
      } else {
        RowDone(after, to, src[..], from, width, m, ptr, srcPos);
      }
    }
  }

  /** A loop over the rows of one plane; the source rows follow each other, those of the buffer are stride
      apart. */
  method CopyPlane(src: array<byte>, from: nat, dst: array<byte>, to: nat, rows: nat, width: nat, stride: nat)
    returns (srcPos: nat, ptr: nat)
    requires src != dst && width <= stride
    requires from + Rows(width, rows) <= src.Length && to + Rows(stride, rows) <= dst.Length
    modifies dst
    ensures srcPos == from + Rows(width, rows) && ptr == to + Rows(stride, rows)
    ensures SamePlane(dst[..], Plane(to, stride, 1), src[..], Plane(from, width, 1), width, rows)
    ensures forall k | 0 <= k < dst.Length && !(to <= k < ptr) :: dst[k] == old(dst[k])
  {
    ghost var pd, ps := Plane(to, stride, 1), Plane(from, width, 1);
    NextRow(width, 0);
    NextRow(stride, 0);
    NoRows(dst[..], pd, src[..], ps, width);
    hide Rows, SamePlane;
    srcPos, ptr := from, to;
    var h: nat := 0;
    while h < rows
      invariant h <= rows && srcPos == from + Rows(width, h) && ptr == to + Rows(stride, h)
      invariant SamePlane(dst[..], pd, src[..], ps, width, h)
      invariant forall k | 0 <= k < dst.Length && !(to <= k < to + Rows(stride, rows)) :: dst[k] == old(dst[k])
    {
      NextRow(width, h);
      NextRow(stride, h);
      RowFits(width, h, rows);
      RowFits(stride, h, rows);
      AddRow(src, srcPos, dst, ptr, width, pd, ps, h);
      ptr := ptr + stride;
      srcPos := srcPos + width;
      h := h + 1;
    }
  }

  // ---------------------------------------------------------------------------- into the window

  /** A plane stays while another place is written. */
  lemma PlaneKeeps(before: seq<byte>, after: seq<byte>, to: Plane, src: seq<byte>, from: Plane,
                   w: nat, h: nat, lo: nat, hi: nat)
    requires SamePlane(before, to, src, from, w, h) && |before| == |after| && to.step == 1 && w <= to.row
    requires to.start + Rows(to.row, h) <= lo || hi <= to.start
    requires forall k | 0 <= k < |after| && !(lo <= k < hi) :: before[k] == after[k]
    ensures SamePlane(after, to, src, from, w, h)
  {
    hide Rows, SameRow;
    forall y: nat | y < h
      ensures SameRow(after, to, src, from, w, y)
    {
      RowsApart(to, w, y, h);
      RowStays(before, after, to, src, from, w, y, lo, hi);
    }
  }

  /** The chroma of a picture takes no more than a quarter each. */
  lemma QuarterFits(w: nat, h: nat)
    ensures 4 * Rows(w / 2, h / 2) <= Rows(w, h)
    ensures w % 2 == 0 && h % 2 == 0 ==> 4 * Rows(w / 2, h / 2) == Rows(w, h)
  {
    var c, r := w / 2, h / 2;
    DoubleRows(c, 2 * r);
    DoubleRows(c, r);
    assert Rows(2 * c, 2 * r) == 4 * Rows(c, r);
    RowsGrow(2 * c, 2 * r, w, h);
  }

  lemma RowsGrow(n: nat, m: nat, n': nat, m': nat)
    requires n <= n' && m <= m'
    ensures Rows(n, m) <= Rows(n', m')
  {
    StepsGrow(m, n, n');
    StepsGrow(n', m, m');
  }

  /** The copy in previewThread, for any size: Y, then U behind the place kept for V, then V. */
  method CopyFrame(frame: array<byte>, dst: array<byte>, width: nat, height: nat, stride: nat)
    requires frame != dst && width <= stride
    requires Rows(width, height) + 2 * Rows(width / 2, height / 2) <= frame.Length
    requires Rows(stride, height) + Rows(stride, height) / 4 + Rows(stride / 2, height / 2) <= dst.Length
    modifies dst
    ensures SamePicture(dst[..], Yv12(stride, height), frame[..], Planar(width, height),
                        width, height, width / 2, height / 2)
    ensures forall k | Rows(stride, height) + Rows(stride, height) / 4 + Rows(stride / 2, height / 2) <= k < dst.Length ::
              dst[k] == old(dst[k])
  {
    QuarterFits(stride, height);
    hide Rows, SamePlane;
    var src, ptr := CopyPlane(frame, 0, dst, 0, height, width, stride);
    ghost var afterY := dst[..];
    var v := ptr;
    ptr := ptr + Rows(stride, height) / 4;
    ghost var u := ptr;
    src, ptr := CopyPlane(frame, src, dst, ptr, height / 2, width / 2, stride / 2);
    ghost var afterU := dst[..];
    PlaneKeeps(afterY, afterU, Plane(0, stride, 1), frame[..], Plane(0, width, 1), width, height, u, ptr);
    ptr := v;
    src, ptr := CopyPlane(frame, src, dst, ptr, height / 2, width / 2, stride / 2);
    ghost var afterV := dst[..];
    PlaneKeeps(afterU, afterV, Plane(0, stride, 1), frame[..], Plane(0, width, 1), width, height, v, ptr);
    PlaneKeeps(afterU, afterV, Plane(u, stride / 2, 1), frame[..], Plane(Rows(width, height), width / 2, 1),
               width / 2, height / 2, v, ptr);
  }

  // ------------------------------------------------------------------------------ in place to NV21

  /** The chroma behind size bytes of luma, n samples of U and then n of V before, is V and U in turn after. */
  ghost predicate Interleaved(after: seq<byte>, before: seq<byte>, size: nat, n: nat) {
    && |after| == |before| && size + 2 * n <= |after|
    && (forall k: nat | k < n :: after[size + 2 * k] == before[size + n + k])
    && (forall k: nat | k < n :: after[size + 2 * k + 1] == before[size + k])
    && (forall k | 0 <= k < |after| && !(size <= k < size + 2 * n) :: after[k] == before[k])
  }

  lemma InterleavedPicture(after: seq<byte>, before: seq<byte>, w: nat, h: nat)
    requires w % 2 == 0 && h % 2 == 0 && Interleaved(after, before, Rows(w, h), Rows(w, h) / 4)
    ensures SamePicture(after, Nv21(w, h), before, Planar(w, h), w, h, w / 2, h / 2)
  {
    QuarterFits(w, h);
    hide Rows, Interleaved, SameRow;
    forall y: nat | y < h
      ensures SameRow(after, Plane(0, w, 1), before, Plane(0, w, 1), w, y)
    {
      LumaRowKept(after, before, w, h, y, Rows(w, h) / 4);
    }
    forall y: nat | y < h / 2
      ensures SameRow(after, Nv21(w, h).u, before, Planar(w, h).u, w / 2, y)
      ensures SameRow(after, Nv21(w, h).v, before, Planar(w, h).v, w / 2, y)
    {
      ChromaRowRelaid(after, before, w, h, y, Rows(w, h) / 4);
    }
  }

  lemma LumaRowKept(after: seq<byte>, before: seq<byte>, w: nat, h: nat, y: nat, n: nat)
    requires Interleaved(after, before, Rows(w, h), n) && y < h
    ensures SameRow(after, Plane(0, w, 1), before, Plane(0, w, 1), w, y)
  {
    RowFits(w, y, h);
    hide Rows;
  }

  lemma ChromaRowRelaid(after: seq<byte>, before: seq<byte>, w: nat, h: nat, y: nat, n: nat)
    requires w % 2 == 0 && y < h / 2 && n == Rows(w / 2, h / 2) && Interleaved(after, before, Rows(w, h), n)
    ensures SameRow(after, Nv21(w, h).u, before, Planar(w, h).u, w / 2, y)
    ensures SameRow(after, Nv21(w, h).v, before, Planar(w, h).v, w / 2, y)
  {
    RowFits(w / 2, y, h / 2);
    DoubleRows(w / 2, y);
    hide Rows, Interleaved;
    forall x: nat | x < w / 2
      ensures SameSample(after, Nv21(w, h).u, before, Planar(w, h).u, x, y)
      ensures SameSample(after, Nv21(w, h).v, before, Planar(w, h).v, x, y)
    {
      InterleavedAt(after, before, Rows(w, h), n, Rows(w / 2, y) + x);
    }
  }

  lemma InterleavedAt(after: seq<byte>, before: seq<byte>, size: nat, n: nat, k: nat)
    requires Interleaved(after, before, size, n) && k < n
    ensures size + 2 * n <= |after| == |before|
    ensures after[size + 2 * k] == before[size + n + k] && after[size + 2 * k + 1] == before[size + k]
  {
  }

  method WritePair(frame: array<byte>, at: nat, first: byte, second: byte)
    requires at + 2 <= frame.Length
    modifies frame
    ensures frame[at] == first && frame[at + 1] == second
    ensures forall k | 0 <= k < frame.Length && !(at <= k < at + 2) :: frame[k] == old(frame[k])
  {
    frame[at] := first;
    frame[at + 1] := second;
  }

  /** The chroma is saved and written back in turn. */
  method Interleave(frame: array<byte>, start: nat, uvSize: nat, n: nat)
    requires start + uvSize <= frame.Length && n == uvSize / 2
    modifies frame
    ensures Interleaved(frame[..], old(frame[..]), start, n)
  {
    var saved := new byte[uvSize](_ => 0);
    CopyRow(frame, start, saved, 0, uvSize);
    var vu, u, v, h := start, 0, n, 0;
    while h < n
      invariant 0 <= h <= n && u == h && v == n + h && vu == start + 2 * h
      invariant forall k | 0 <= k < uvSize :: saved[k] == old(frame[start + k])
      invariant forall k: nat | k < h :: frame[start + 2 * k] == old(frame[start + n + k])
      invariant forall k: nat | k < h :: frame[start + 2 * k + 1] == old(frame[start + k])
      invariant forall k | 0 <= k < frame.Length && !(start <= k < vu) :: frame[k] == old(frame[k])
    {
      WritePair(frame, vu, saved[v], saved[u]);
      vu, v, u := vu + 2, v + 1, u + 1;
      h := h + 1;
    }
  }

  /** The conversion in previewThread: a quarter of the size is swapped with the next; for even sizes that
      keeps every sample of every pixel. */
  method ToNv21(frame: array<byte>, width: nat, height: nat)
    requires Rows(width, height) + Rows(width, height) / 2 <= frame.Length
    modifies frame
    ensures Interleaved(frame[..], old(frame[..]), Rows(width, height), Rows(width, height) / 4)
    ensures width % 2 == 0 && height % 2 == 0 ==>
      SamePicture(frame[..], Nv21(width, height), old(frame[..]), Planar(width, height),
                  width, height, width / 2, height / 2)
  {
    hide Rows, SamePicture, Interleaved;
    var vu := Rows(width, height);
    Interleave(frame, vu, vu / 2, vu / 4);
    if width % 2 == 0 && height % 2 == 0 {
      InterleavedPicture(frame[..], old(frame[..]), width, height);
    }
  }

  /** For sizes that are not even the two steps can mean different places by the V plane: the copy reads it
      behind the rows of U, the conversion at a quarter of the size. They agree for even sizes, and exactly
      when no more than three pixels of the size are left over from whole squares. */
  lemma StepsAgreeIff(w: nat, h: nat)
    ensures Planar(w, h).v.start == Rows(w, h) + Rows(w, h) / 4
       <==> Rows(w, h) - 4 * Rows(w / 2, h / 2) <= 3
    ensures w % 2 == 0 && h % 2 == 0 ==> Planar(w, h).v.start == Rows(w, h) + Rows(w, h) / 4
  {
    QuarterFits(w, h);
    hide Rows;
  }

  lemma OddStepsDisagree()
    ensures Planar(3, 4).v.start == 14 && Rows(3, 4) + Rows(3, 4) / 4 == 15
  {
  }
}
