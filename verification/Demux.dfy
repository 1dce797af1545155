/** The camera's interleaved snapshot: JPEG words, framed YUV lines and padding words in one stream. */
module Demux {
  import opened Bytes
  import opened Options

  function Le32(w: seq<byte>): nat
    requires |w| == 4
  {
    w[0] as int + 0x100 * w[1] as int + 0x10000 * w[2] as int + 0x1000000 * w[3] as int
  }

  predicate IsPadding(w: seq<byte>)
    requires |w| == 4
  {
    Le32(w) == 0xFFFFFFFF || Le32(w) == 0x02FFFFFF || Le32(w) == 0xFF02FFFF
  }

  predicate IsLineStart(w: seq<byte>)
    requires |w| == 4
  {
    Le32(w) % 0x10000 == 0x05FF
  }

  lemma LineStartBytes(w: seq<byte>)
    requires |w| == 4
    ensures IsLineStart(w) <==> w[0] == 0xFF && w[1] == 0x05
    ensures IsLineStart(w) ==> !IsPadding(w)
  {
    var high := w[2] as int + 0x100 * w[3] as int;
    var low := w[0] as int + 0x100 * w[1] as int;
    assert Le32(w) == low + 0x10000 * high && 0 <= low < 0x10000;
    assert Le32(w) % 0x10000 == low;
  }

  // ------------------------------------------------------------------------ what a stream means

  datatype Item = Padding(bytes: seq<byte>) | Jpeg(bytes: seq<byte>) | Line(pixels: seq<byte>)

  const START: seq<byte> := [0xFF, 0x05]
  const END: seq<byte> := [0xFF, 0x06]
  const EOI: seq<byte> := [0xFF, 0xD9]

  function Encode(it: Item): seq<byte> {
    match it
    case Padding(b) => b
    case Jpeg(b) => b
    case Line(p) => START + p + END
  }

  function EncodeAll(items: seq<Item>): seq<byte> {
    if items == [] then [] else Encode(items[0]) + EncodeAll(items[1..])
  }

  /** What may appear in a stream with lines of w pixels, two bytes each. */
  predicate Proper(it: Item, w: nat) {
    match it
    case Padding(b) => |b| == 4 && IsPadding(b)
    case Jpeg(b) => |b| == 4 && !IsPadding(b) && !IsLineStart(b)
    case Line(p) => |p| == 2 * w
  }

  predicate AllProper(items: seq<Item>, w: nat) {
    forall k | 0 <= k < |items| :: Proper(items[k], w)
  }

  function JpegOf(items: seq<Item>): seq<byte> {
    if items == [] then []
    else (if items[0].Jpeg? then items[0].bytes else []) + JpegOf(items[1..])
  }

  function LinesOf(items: seq<Item>): seq<seq<byte>> {
    if items == [] then []
    else (if items[0].Line? then [items[0].pixels] else []) + LinesOf(items[1..])
  }

  function Flatten(lines: seq<seq<byte>>): seq<byte> {
    if lines == [] then [] else lines[0] + Flatten(lines[1..])
  }

  // -------------------------------------------------------------------------- reading a stream

  /** How reading ended: at the end of the data, at a line without its end code, or by needing bytes
      beyond the data. */
  datatype Ending = Done | BadEnd(pixels: seq<byte>) | Overrun

  datatype Parsed = Parsed(items: seq<Item>, ending: Ending)

  function Cons(it: Item, p: Parsed): Parsed {
    Parsed([it] + p.items, p.ending)
  }

  function Parse(data: seq<byte>, w: nat): Parsed {
    if data == [] then Parsed([], Done)
    else if |data| < 4 then Parsed([], Overrun)
    else if IsPadding(data[..4]) then Cons(Padding(data[..4]), Parse(data[4..], w))
    else if IsLineStart(data[..4]) then
      if |data| < 3 + 2 * w then Parsed([], Overrun)
      else if data[2 + 2 * w] != 0xFF then Parsed([], BadEnd(data[2..2 + 2 * w]))
      else if |data| < 4 + 2 * w then Parsed([], Overrun)
      else if data[3 + 2 * w] != 0x06 then Parsed([], BadEnd(data[2..2 + 2 * w]))
      else Cons(Line(data[2..2 + 2 * w]), Parse(data[4 + 2 * w..], w))
    else Cons(Jpeg(data[..4]), Parse(data[4..], w))
  }

  lemma ProperRest(items: seq<Item>, w: nat)
    requires AllProper(items, w) && items != []
    ensures Proper(items[0], w) && AllProper(items[1..], w)
  {
    hide Proper;
  }

  /** Reading undoes writing: every sequence of proper items comes back as it was. */
  lemma {:induction false} ParseEncode(items: seq<Item>, w: nat)
    requires AllProper(items, w)
    ensures Parse(EncodeAll(items), w) == Parsed(items, Done)
  {
    hide AllProper, Proper, Encode;
    if items != [] {
      var it, rest := items[0], items[1..];
      ProperRest(items, w);
      hide Parse;
      ParseEncode(rest, w);
      ParseFirst(it, EncodeAll(rest), w);
      assert [it] + rest == items;
    }
  }

  lemma ParseFirst(it: Item, rest: seq<byte>, w: nat)
    requires Proper(it, w)
    ensures Parse(Encode(it) + rest, w) == Cons(it, Parse(rest, w))
  {
    var data := Encode(it) + rest;
    match it
    case Line(p) =>
      LineStartBytes(data[..4]);
      assert data[2..2 + 2 * w] == p;
      assert data[4 + 2 * w..] == rest;
    case _ =>
      assert data[..4] == it.bytes;
      assert data[4..] == rest;
  }

  /** What is read first is encoded at the front of the data. */
  lemma ParseSplits(data: seq<byte>, w: nat) returns (it: Item, n: nat)
    requires data != [] && Parse(data, w).ending.Done?
    ensures 0 < n <= |data| && Proper(it, w) && Encode(it) == data[..n]
    ensures Parse(data, w) == Cons(it, Parse(data[n..], w))
  {
    assert |data| >= 4;
    LineStartBytes(data[..4]);
    hide Le32, IsPadding;
    if IsLineStart(data[..4]) {
      n := 4 + 2 * w;
      it := Line(data[2..2 + 2 * w]);
      assert data[..n] == START + data[2..2 + 2 * w] + END;
    } else {
      n := 4;
      it := if IsPadding(data[..4]) then Padding(data[..4]) else Jpeg(data[..4]);
    }
  }

  lemma ProperCons(it: Item, rest: seq<Item>, w: nat)
    requires Proper(it, w) && AllProper(rest, w)
    ensures AllProper([it] + rest, w)
  {
    hide Proper;
    var all := [it] + rest;
    forall k | 0 <= k < |all|
      ensures Proper(all[k], w)
    {
      if k > 0 {
        assert all[k] == rest[k - 1];
      }
    }
  }

  /** Writing undoes reading: whatever is read to the end is the encoding of what was read. */
  lemma {:induction false} EncodeParse(data: seq<byte>, w: nat)
    requires Parse(data, w).ending.Done?
    ensures AllProper(Parse(data, w).items, w) && EncodeAll(Parse(data, w).items) == data
    decreases |data|
  {
    hide Parse, Proper, Encode, AllProper, EncodeAll;
    if data != [] {
      var it, n := ParseSplits(data, w);
      EncodeParse(data[n..], w);
      var rest := Parse(data[n..], w).items;
      ProperCons(it, rest, w);
      EncodeCons(it, rest);
      assert data == data[..n] + data[n..];
    } else {
      EmptyData(w);
    }
  }

  lemma EmptyData(w: nat)
    ensures Parse([], w) == Parsed([], Done) && AllProper([], w) && EncodeAll([]) == []
  {
  }

  lemma EncodeCons(it: Item, rest: seq<Item>)
    ensures EncodeAll([it] + rest) == Encode(it) + EncodeAll(rest)
  {
    assert ([it] + rest)[1..] == rest;
  }

  // ------------------------------------------------------------------------- the end of the JPEG

  /** Up to n trailing FF bytes removed. */
  function Strip(s: seq<byte>, n: nat): seq<byte> {
    if n > 0 && s != [] && s[|s| - 1] == 0xFF then Strip(s[..|s| - 1], n - 1) else s
  }

  function Fill(k: nat): seq<byte> {
    seq(k, _ => 0xFF)
  }

  /** j filled up with FF to whole words. */
  function Padded(j: seq<byte>): seq<byte> {
    j + Fill((4 - |j| % 4) % 4)
  }

  lemma {:induction false} StripFill(j: seq<byte>, k: nat, n: nat)
    requires k <= n && j != [] && j[|j| - 1] != 0xFF
    ensures Strip(j + Fill(k), n) == j
  {
    if k == 0 {
      assert j + Fill(0) == j;
    } else {
      assert (j + Fill(k))[..|j| + k - 1] == j + Fill(k - 1);
      StripFill(j, k - 1, n - 1);
    }
  }

  lemma {:induction false} LinesSize(items: seq<Item>, w: nat)
    requires AllProper(items, w)
    ensures |Flatten(LinesOf(items))| == w * |LinesOf(items)| * 2
  {
    if items != [] {
      var rest := items[1..];
      LinesSize(rest, w);
      assert Proper(items[0], w);
      if items[0].Line? {
        assert LinesOf(items)[1..] == LinesOf(rest);
        assert w * (1 + |LinesOf(rest)|) * 2 == 2 * w + w * |LinesOf(rest)| * 2;
      } else {
        assert LinesOf(items) == LinesOf(rest);
      }
    }
  }

  /** All the pixels of the lines, as they are laid out in the output. */
  function PixelsOf(items: seq<Item>): seq<byte> {
    Flatten(LinesOf(items))
  }

  /** What the call gives back: its result, or that it had to touch memory outside its buffers, and the
      JPEG size if it stored one. An empty JPEG cannot be stripped: the byte before the buffer is read. */
  datatype Outcome = Returned(ok: bool, jpegSize: Option<nat>) | OutOfBounds

  function Answer(p: Parsed, wantsJpeg: bool, wantsYuv: bool, w: nat, h: nat): Outcome {
    match p.ending
    case Overrun => OutOfBounds
    case BadEnd(_) => Returned(false, None)
    case Done =>
      if wantsJpeg && JpegOf(p.items) == [] then OutOfBounds
      else Returned(!wantsYuv || |PixelsOf(p.items)| == w * h * 2,
                    if wantsJpeg then Some(|Strip(JpegOf(p.items), 3)|) else None)
  }

  /** The round trip. A JPEG that ends in EOI, filled up to words none of which is a padding word or
      begins a line, and any h lines, in any interleaving and with padding words anywhere: the stream
      is read to its end, gives back exactly the JPEG and the lines, and the call succeeds. */
  lemma InterleavingRoundTrip(j: seq<byte>, lines: seq<seq<byte>>, items: seq<Item>, w: nat, h: nat)
    requires AllProper(items, w)
    requires JpegOf(items) == Padded(j) && LinesOf(items) == lines && |lines| == h
    requires |j| >= 2 && j[|j| - 2..] == EOI
    ensures Parse(EncodeAll(items), w) == Parsed(items, Done)
    ensures Strip(JpegOf(items), 3) == j && PixelsOf(items) == Flatten(lines)
    ensures Answer(Parse(EncodeAll(items), w), true, true, w, h) == Returned(true, Some(|j|))
  {
    assert j[|j| - 1] == EOI[1];
    hide Parse, EncodeAll, AllProper, JpegOf, LinesOf, Flatten, Strip;
    ParseEncode(items, w);
    StripFill(j, (4 - |j| % 4) % 4, 3);
    LinesSize(items, w);
  }

  /** Data that is read to its end may answer OutOfBounds: one padding word holds no JPEG to strip. */
  lemma PaddingAloneIsOutOfBounds(w: nat, h: nat)
    ensures var p := Parse([0xFF, 0xFF, 0xFF, 0xFF], w);
      p == Parsed([Padding([0xFF, 0xFF, 0xFF, 0xFF])], Done) && Answer(p, true, false, w, h) == OutOfBounds
  {
    var it := Padding([0xFF, 0xFF, 0xFF, 0xFF]);
    assert Proper(it, w);
    assert it.bytes + [] == it.bytes;
    ParseFirst(it, [], w);
    assert Parse([], w) == Parsed([], Done);
    assert JpegOf([it]) == [] by {
      JpegOne(it);
    }
  }

  // ------------------------------------------------------------------------------- the decoder

  lemma JpegCons(it: Item, rest: seq<Item>)
    ensures JpegOf([it] + rest) == (if it.Jpeg? then it.bytes else []) + JpegOf(rest)
  {
    assert ([it] + rest)[1..] == rest;
  }

  lemma {:induction false} JpegJoin(a: seq<Item>, b: seq<Item>)
    ensures JpegOf(a + b) == JpegOf(a) + JpegOf(b)
  {
    if a == [] {
      assert a + b == b;
    } else {
      hide JpegOf;
      JpegJoin(a[1..], b);
      JpegCons(a[0], a[1..] + b);
      JpegCons(a[0], a[1..]);
      HeadTail(a, b);
      Regroup(if a[0].Jpeg? then a[0].bytes else [], JpegOf(a[1..]), JpegOf(b));
    }
  }

  lemma {:induction false} PixelsJoin(a: seq<Item>, b: seq<Item>)
    ensures PixelsOf(a + b) == PixelsOf(a) + PixelsOf(b)
  {
    if a == [] {
      assert a + b == b;
    } else {
      hide PixelsOf;
      PixelsJoin(a[1..], b);
      PixelsCons(a[0], a[1..] + b);
      PixelsCons(a[0], a[1..]);
      HeadTail(a, b);
      Regroup(if a[0].Line? then a[0].pixels else [], PixelsOf(a[1..]), PixelsOf(b));
    }
  }

  lemma HeadTail<T>(a: seq<T>, b: seq<T>)
    requires a != []
    ensures [a[0]] + (a[1..] + b) == a + b && [a[0]] + a[1..] == a
  {
  }

  lemma Regroup<T>(a: seq<T>, b: seq<T>, c: seq<T>)
    ensures a + (b + c) == (a + b) + c
  {
  }

  lemma PixelsCons(it: Item, rest: seq<Item>)
    ensures PixelsOf([it] + rest) == (if it.Line? then it.pixels else []) + PixelsOf(rest)
  {
    assert ([it] + rest)[1..] == rest;
    if it.Line? {
      assert ([it.pixels] + LinesOf(rest))[1..] == LinesOf(rest);
    } else {
      assert LinesOf([it] + rest) == LinesOf(rest);
    }
  }

  /** The output buffer, if there is one, begins with s. */
  ghost predicate Filled(a: array?<byte>, s: seq<byte>)
    reads a
  {
    a != null ==> |s| <= a.Length && a[..|s|] == s
  }

  /** The output buffer, if there is one, has room for s. */
  predicate Room(a: array?<byte>, s: seq<byte>) {
    a != null ==> |s| <= a.Length
  }

  /** memcpy */
  method Copy(src: array<byte>, from: nat, n: nat, dst: array<byte>, to: nat)
    requires src != dst && from + n <= src.Length && to + n <= dst.Length
    modifies dst
    ensures forall k | 0 <= k < dst.Length ::
              dst[k] == if to <= k < to + n then src[from + k - to] else old(dst[k])
  {
    for k := 0 to n
      invariant forall j | 0 <= j < dst.Length ::
                  dst[j] == if to <= j < to + k then src[from + j - to] else old(dst[j])
    {
      dst[to + k] := src[from + k];
    }
  }

  /** Puts a piece of the data behind what the buffer holds, if there is a buffer. */
  method Append(src: array<byte>, from: nat, n: nat, dst: array?<byte>, to: nat, ghost had: seq<byte>)
    returns (next: nat)
    requires src != dst && from + n <= src.Length
    requires Filled(dst, had) && (dst != null ==> to == |had|)
    requires Room(dst, had + src[from..from + n])
    modifies dst
    ensures Filled(dst, had + src[from..from + n])
    ensures dst != null ==> next == |had| + n
  {
    next := to;
    if dst != null {
      Copy(src, from, n, dst, to);
      next := to + n;
      assert dst[..next] == had + src[from..from + n];
    }
  }

  /** What was done so far and what the rest of the data says make up what all the data says. */
  ghost predicate Splits(s: seq<byte>, w: nat, done: seq<Item>, i: nat) {
    && i <= |s|
    && var rest := Parse(s[i..], w);
       Parse(s, w) == Parsed(done + rest.items, rest.ending)
  }

  lemma SplitsOn(s: seq<byte>, w: nat, done: seq<Item>, i: nat, it: Item, n: nat)
    requires Splits(s, w, done, i) && i + n <= |s|
    requires Parse(s[i..], w) == Cons(it, Parse(s[i..][n..], w))
    ensures Splits(s, w, done + [it], i + n)
    ensures JpegOf(Parse(s, w).items) == JpegOf(done + [it]) + JpegOf(Parse(s[i + n..], w).items)
    ensures PixelsOf(Parse(s, w).items) == PixelsOf(done + [it]) + PixelsOf(Parse(s[i + n..], w).items)
    ensures JpegOf(done + [it]) == JpegOf(done) + if it.Jpeg? then it.bytes else []
    ensures PixelsOf(done + [it]) == PixelsOf(done) + if it.Line? then it.pixels else []
  {
    hide JpegOf, PixelsOf, Parse;
    assert s[i..][n..] == s[i + n..];
    var rest := Parse(s[i + n..], w).items;
    assert done + ([it] + rest) == (done + [it]) + rest;
    JpegJoin(done + [it], rest);
    JpegJoin(done, [it]);
    PixelsJoin(done + [it], rest);
    PixelsJoin(done, [it]);
    JpegOne(it);
    PixelsOne(it);
  }

  lemma JpegOne(it: Item)
    ensures JpegOf([it]) == if it.Jpeg? then it.bytes else []
  {
    assert JpegOf([it][1..]) == [];
  }

  lemma PixelsOne(it: Item)
    ensures PixelsOf([it]) == if it.Line? then it.pixels else []
  {
    PixelsCons(it, []);
    assert [it] + [] == [it];
    assert PixelsOf([]) == [];
  }

  ghost predicate Buffers(data: array<byte>, jpeg: array?<byte>, yuv: array?<byte>) {
    && jpeg != data && yuv != data
    && (jpeg != null ==> jpeg != yuv)
  }

  /** What a parse leaves in the pixel buffer: the lines, and the pixels of the line that broke off. */
  function Stored(p: Parsed): seq<byte> {
    PixelsOf(p.items) + if p.ending.BadEnd? then p.ending.pixels else []
  }

  /** The decoder between two items: it has read done from the first i bytes of s and stored what was
      wanted of it. */
  ghost predicate Reading(s: seq<byte>, w: nat, done: seq<Item>, i: nat,
                          jpeg: array?<byte>, jpegPtr: nat, yuv: array?<byte>, yuvPtr: nat)
    reads jpeg, yuv
  {
    && Splits(s, w, done, i)
    && Room(jpeg, JpegOf(Parse(s, w).items)) && Room(yuv, Stored(Parse(s, w)))
    && Filled(jpeg, JpegOf(done)) && (jpeg != null ==> jpegPtr == |JpegOf(done)|)
    && Filled(yuv, PixelsOf(done)) && (yuv != null ==> yuvPtr == |PixelsOf(done)|)
  }

  /** One more item, after the buffers were brought up to it. */
  lemma ReadingOn(s: seq<byte>, w: nat, done: seq<Item>, i: nat, it: Item, n: nat,
                  jpeg: array?<byte>, jpegPtr: nat, yuv: array?<byte>, yuvPtr: nat)
    requires Splits(s, w, done, i) && i + n <= |s|
    requires Parse(s[i..], w) == Cons(it, Parse(s[i..][n..], w))
    requires Room(jpeg, JpegOf(Parse(s, w).items)) && Room(yuv, Stored(Parse(s, w)))
    requires Filled(jpeg, JpegOf(done) + if it.Jpeg? then it.bytes else [])
    requires jpeg != null ==> jpegPtr == |JpegOf(done)| + if it.Jpeg? then |it.bytes| else 0
    requires Filled(yuv, PixelsOf(done) + if it.Line? then it.pixels else [])
    requires yuv != null ==> yuvPtr == |PixelsOf(done)| + if it.Line? then |it.pixels| else 0
    ensures Reading(s, w, done + [it], i + n, jpeg, jpegPtr, yuv, yuvPtr)
  {
    hide Parse, JpegOf, PixelsOf, Stored, Splits, Filled;
    SplitsOn(s, w, done, i, it, n);
  }

  method TakeJpeg(data: array<byte>, ghost s: seq<byte>, w: nat, ghost done: seq<Item>, i: nat,
                  jpeg: array?<byte>, jpegPtr: nat, yuv: array?<byte>, ghost yuvPtr: nat)
    returns (next: nat)
    requires Buffers(data, jpeg, yuv) && |s| <= data.Length && data[..|s|] == s
    requires Reading(s, w, done, i, jpeg, jpegPtr, yuv, yuvPtr) && i + 4 <= |s|
    requires Parse(s[i..], w) == Cons(Jpeg(s[i..][..4]), Parse(s[i..][4..], w))
    modifies jpeg
    ensures data[..|s|] == s
    ensures Reading(s, w, done + [Jpeg(s[i..][..4])], i + 4, jpeg, next, yuv, yuvPtr)
  {
    hide Parse, JpegOf, PixelsOf, Stored, Splits;
    SplitsOn(s, w, done, i, Jpeg(s[i..][..4]), 4);
    assert s[i..][..4] == data[i..i + 4];
    next := Append(data, i, 4, jpeg, jpegPtr, JpegOf(done));
    ReadingOn(s, w, done, i, Jpeg(s[i..][..4]), 4, jpeg, next, yuv, yuvPtr);
  }

  /** Takes up to three FF bytes off the end of a JPEG of n bytes. */
  method StripPadding(jpeg: array<byte>, n: nat) returns (size: nat)
    requires 3 < n <= jpeg.Length
    ensures size == |Strip(jpeg[..n], 3)|
  {
    size := n;
    var ptr := n;
    for k := 0 to 3
      invariant size == ptr == n - k
      invariant Strip(jpeg[..n], 3) == Strip(jpeg[..size], 3 - k)
    {
      ptr := ptr - 1;
      assert jpeg[..size][..size - 1] == jpeg[..size - 1];
      if jpeg[ptr] != 0xFF {
        break;
      }
      size := size - 1;
    }
  }

  /** What reading the data from a word on finds there, if it does not leave the data. */
  datatype Head = Short | Pad | Broken | Framed | Word

  function HeadOf(data: seq<byte>, w: nat): (h: Head)
    requires data != []
    ensures |data| >= 4 || h.Short?
    ensures h.Framed? ==> |data| >= 4 + 2 * w
    ensures h.Broken? ==> |data| >= 3 + 2 * w
  {
    if |data| < 4 then Short
    else if IsPadding(data[..4]) then Pad
    else if IsLineStart(data[..4]) then
      if |data| < 3 + 2 * w then Short
      else if data[2 + 2 * w] != 0xFF then Broken
      else if |data| < 4 + 2 * w then Short
      else if data[3 + 2 * w] != 0x06 then Broken
      else Framed
    else Word
  }

  lemma ParseHead(data: seq<byte>, w: nat)
    requires data != []
    ensures match HeadOf(data, w)
            case Short => Parse(data, w) == Parsed([], Overrun)
            case Pad => Parse(data, w) == Cons(Padding(data[..4]), Parse(data[4..], w))
            case Broken => Parse(data, w) == Parsed([], BadEnd(data[2..2 + 2 * w]))
            case Framed => Parse(data, w) == Cons(Line(data[2..2 + 2 * w]), Parse(data[4 + 2 * w..], w))
            case Word => Parse(data, w) == Cons(Jpeg(data[..4]), Parse(data[4..], w))
  {
    hide Le32, IsPadding, IsLineStart;
  }

  lemma ReadingEnds(s: seq<byte>, w: nat, done: seq<Item>, i: nat)
    requires Splits(s, w, done, i) && i < |s|
    ensures HeadOf(s[i..], w).Short? ==> Parse(s, w) == Parsed(done, Overrun)
    ensures HeadOf(s[i..], w).Broken? ==>
              Parse(s, w) == Parsed(done, BadEnd(s[i..][2..2 + 2 * w]))
  {
    ParseHead(s[i..], w);
    hide Parse, HeadOf;
    assert done + [] == done;
  }

  lemma EndCode(data: seq<byte>, w: nat)
    requires data != [] && (HeadOf(data, w).Framed? || HeadOf(data, w).Broken?)
    ensures data[2 + 2 * w] == 0xFF ==> |data| > 3 + 2 * w
    ensures HeadOf(data, w).Framed? <==> data[2 + 2 * w] == 0xFF && data[3 + 2 * w] == 0x06
  {
    hide Le32, IsPadding, IsLineStart;
  }

  lemma LineRoom(s: seq<byte>, w: nat, done: seq<Item>, i: nat, yuv: array?<byte>)
    requires Splits(s, w, done, i) && i < |s| && Room(yuv, Stored(Parse(s, w)))
    requires HeadOf(s[i..], w).Framed? || HeadOf(s[i..], w).Broken?
    ensures Room(yuv, PixelsOf(done) + s[i..][2..2 + 2 * w])
  {
    hide Parse, JpegOf, PixelsOf, Splits, HeadOf;
    ParseHead(s[i..], w);
    ReadingEnds(s, w, done, i);
    if HeadOf(s[i..], w).Framed? {
      var it := Line(s[i..][2..2 + 2 * w]);
      SplitsOn(s, w, done, i, it, 4 + 2 * w);
      assert PixelsOf(done + [it]) == PixelsOf(done) + it.pixels;
    }
  }

  /** A line: its pixels are stored before its end code is looked at. */
  method TakeLine(data: array<byte>, ghost s: seq<byte>, w: nat, ghost done: seq<Item>, i: nat,
                  jpeg: array?<byte>, ghost jpegPtr: nat, yuv: array?<byte>, yuvPtr: nat)
    returns (good: bool, next: nat)
    requires Buffers(data, jpeg, yuv) && |s| <= data.Length && data[..|s|] == s
    requires Reading(s, w, done, i, jpeg, jpegPtr, yuv, yuvPtr) && i < |s|
    requires HeadOf(s[i..], w).Framed? || HeadOf(s[i..], w).Broken?
    modifies yuv
    ensures data[..|s|] == s
    ensures good == HeadOf(s[i..], w).Framed?
    ensures good ==>
      Reading(s, w, done + [Line(s[i..][2..2 + 2 * w])], i + 4 + 2 * w, jpeg, jpegPtr, yuv, next)
    ensures !good ==> Filled(jpeg, JpegOf(done)) && Filled(yuv, PixelsOf(done) + s[i..][2..2 + 2 * w])
  {
    hide Parse, JpegOf, PixelsOf, Stored, Splits, HeadOf;
    ghost var pixels := s[i..][2..2 + 2 * w];
    ParseHead(s[i..], w);
    EndCode(s[i..], w);
    LineRoom(s, w, done, i, yuv);
    var n := w * 2;
    var p := i + 2;
    assert data[p..p + n] == pixels;
    next := Append(data, p, n, yuv, yuvPtr, PixelsOf(done));
    p := p + n;
    assert data[..|s|] == s;
    assert data[p] == s[i..][2 + 2 * w];
    good := data[p] == 0xFF && data[p + 1] == 0x06;
    if good {
      ReadingOn(s, w, done, i, Line(pixels), 4 + 2 * w, jpeg, jpegPtr, yuv, next);
    }
  }

  method IsPaddingWord(data: array<byte>, at: nat) returns (yes: bool)
    requires at + 4 <= data.Length
    ensures yes == IsPadding(data[at..at + 4])
  {
    var word := Le32(data[at..at + 4]);
    yes := word == 0xFFFFFFFF || word == 0x02FFFFFF || word == 0xFF02FFFF;
  }

  /** What the call has to end with: the answer the data demands, and, unless it would leave its buffers,
      all the items read stored in them. */
  ghost predicate Ends(s: seq<byte>, w: nat, h: nat, jpeg: array?<byte>, yuv: array?<byte>, outcome: Outcome)
    reads jpeg, yuv
  {
    var p := Parse(s, w);
    && outcome == Answer(p, jpeg != null, yuv != null, w, h)
    && (!p.ending.Overrun? ==> Filled(jpeg, JpegOf(p.items)) && Filled(yuv, Stored(p)))
  }

  /** Reads the data item by item; ptr is the read pointer and i the byte count, which the loop keeps
      in step. Reading stops where the next read would leave the data. */
  method DecodeInterleaveData(data: array?<byte>, size: nat, yuvWidth: nat, yuvHeight: nat,
                              jpeg: array?<byte>, yuv: array?<byte>)
    returns (outcome: Outcome)
    requires data != null ==>
      && size <= data.Length && Buffers(data, jpeg, yuv)
      && Room(jpeg, JpegOf(Parse(data[..size], yuvWidth).items))
      && Room(yuv, Stored(Parse(data[..size], yuvWidth)))
    modifies jpeg, yuv
    ensures data == null ==> outcome == Returned(false, None)
    ensures data == null && jpeg != null ==> jpeg[..] == old(jpeg[..])
    ensures data == null && yuv != null ==> yuv[..] == old(yuv[..])
    ensures data != null ==> data[..] == old(data[..])
    ensures data != null ==> Ends(data[..size], yuvWidth, yuvHeight, jpeg, yuv, outcome)
  {
    if data == null {
      return Returned(false, None);
    }
    ghost var s := data[..size];
    ghost var done: seq<Item> := [];
    var ptr: nat, i: nat := 0, 0;
    var jpegPtr: nat, yuvPtr: nat := 0, 0;
    ReadingStarts(s, yuvWidth, jpeg, yuv);
    hide *;
    while i < size
      invariant ptr == i <= size && data[..size] == s
      invariant Reading(s, yuvWidth, done, i, jpeg, jpegPtr, yuv, yuvPtr)
    {
      var ended;
      ended, ptr, i, jpegPtr, yuvPtr, done :=
        DecodeWord(data, size, s, yuvWidth, yuvHeight, done, ptr, i, jpeg, jpegPtr, yuv, yuvPtr);
      if ended.Some? {
        return ended.value;
      }
    }
    outcome := Finish(s, yuvWidth, yuvHeight, done, jpeg, jpegPtr, yuv, yuvPtr);
  }

  /** One pass of the loop: the next item is stored and skipped, or the call ends. */
  method DecodeWord(data: array<byte>, size: nat, ghost s: seq<byte>, yuvWidth: nat, ghost yuvHeight: nat,
                    ghost done: seq<Item>, ptr: nat, i: nat,
                    jpeg: array?<byte>, jpegPtr: nat, yuv: array?<byte>, yuvPtr: nat)
    returns (ended: Option<Outcome>, ptr': nat, i': nat, jpegPtr': nat, yuvPtr': nat, ghost done': seq<Item>)
    requires Buffers(data, jpeg, yuv) && size <= data.Length && data[..size] == s
    requires ptr == i < size && Reading(s, yuvWidth, done, i, jpeg, jpegPtr, yuv, yuvPtr)
    modifies jpeg, yuv
    ensures data[..size] == s
    ensures ended.None? ==>
      && ptr' == i' && i < i' <= size
      && Reading(s, yuvWidth, done', i', jpeg, jpegPtr', yuv, yuvPtr')
    ensures ended.Some? ==> Ends(s, yuvWidth, yuvHeight, jpeg, yuv, ended.value)
  {
    hide Parse, JpegOf, PixelsOf, Stored, Splits, HeadOf, IsPadding, IsLineStart, Filled, Room, Cons,
      Reading, Answer;
    ended, ptr', i', jpegPtr', yuvPtr', done' := None, ptr, i, jpegPtr, yuvPtr, done;
    ghost var rest := s[i..];
    ParseHead(rest, yuvWidth);
    StopsHere(s, yuvWidth, yuvHeight, done, i, jpeg, jpegPtr, yuv, yuvPtr);
    HeadTests(rest, yuvWidth);
    if size - i < 4 {
      ended := Some(OutOfBounds);
      return;
    }
    assert data[ptr..ptr + 4] == rest[..4];
    var padding := IsPaddingWord(data, ptr);
    if padding {
      SkipPadding(s, yuvWidth, done, i, jpeg, jpegPtr, yuv, yuvPtr);
      done' := done + [Padding(rest[..4])];
      ptr', i' := ptr + 4, i + 4;
    } else if IsLineStart(data[ptr..ptr + 4]) {
      var n := yuvWidth * 2;
      if size - i < n + 3 || (data[ptr + n + 2] == 0xFF && size - i < n + 4) {
        ended := Some(OutOfBounds);
        return;
      }
      var good;
      good, yuvPtr' := TakeLine(data, s, yuvWidth, done, ptr, jpeg, jpegPtr, yuv, yuvPtr);
      i' := i + 2 + n;
      if good {
        done' := done + [Line(rest[2..2 + 2 * yuvWidth])];
        ptr', i' := ptr + n + 4, i' + 2;
      } else {
        ended := Some(Returned(false, None));
      }
    } else {
      jpegPtr' := TakeJpeg(data, s, yuvWidth, done, ptr, jpeg, jpegPtr, yuv, yuvPtr);
      done' := done + [Jpeg(rest[..4])];
      ptr', i' := ptr + 4, i + 4;
    }
  }

  lemma StopsHere(s: seq<byte>, w: nat, h: nat, done: seq<Item>, i: nat,
                  jpeg: array?<byte>, jpegPtr: nat, yuv: array?<byte>, yuvPtr: nat)
    requires Reading(s, w, done, i, jpeg, jpegPtr, yuv, yuvPtr) && i < |s|
    ensures HeadOf(s[i..], w).Short? ==>
      Parse(s, w).ending.Overrun? && Answer(Parse(s, w), jpeg != null, yuv != null, w, h) == OutOfBounds
    ensures HeadOf(s[i..], w).Broken? ==>
      && Parse(s, w).ending.BadEnd?
      && Answer(Parse(s, w), jpeg != null, yuv != null, w, h) == Returned(false, None)
      && JpegOf(Parse(s, w).items) == JpegOf(done)
      && Stored(Parse(s, w)) == PixelsOf(done) + s[i..][2..2 + 2 * w]
  {
    hide Parse, JpegOf, PixelsOf, Splits, HeadOf, Filled, Room;
    ReadingEnds(s, w, done, i);
  }

  lemma SkipPadding(s: seq<byte>, w: nat, done: seq<Item>, i: nat,
                    jpeg: array?<byte>, jpegPtr: nat, yuv: array?<byte>, yuvPtr: nat)
    requires Reading(s, w, done, i, jpeg, jpegPtr, yuv, yuvPtr) && i < |s| && HeadOf(s[i..], w).Pad?
    ensures Reading(s, w, done + [Padding(s[i..][..4])], i + 4, jpeg, jpegPtr, yuv, yuvPtr)
  {
    ParseHead(s[i..], w);
    hide Parse, JpegOf, PixelsOf, Splits, HeadOf, Stored;
    assert JpegOf(done) + [] == JpegOf(done) && PixelsOf(done) + [] == PixelsOf(done);
    ReadingOn(s, w, done, i, Padding(s[i..][..4]), 4, jpeg, jpegPtr, yuv, yuvPtr);
  }

  lemma ReadingStarts(s: seq<byte>, w: nat, jpeg: array?<byte>, yuv: array?<byte>)
    requires Room(jpeg, JpegOf(Parse(s, w).items)) && Room(yuv, Stored(Parse(s, w)))
    ensures Reading(s, w, [], 0, jpeg, 0, yuv, 0)
  {
    assert s[0..] == s;
    assert [] + Parse(s, w).items == Parse(s, w).items;
  }

  /** The tests the loop makes decide what comes next. */
  lemma HeadTests(data: seq<byte>, w: nat)
    requires data != []
    ensures |data| < 4 ==> HeadOf(data, w).Short?
    ensures |data| >= 4 ==>
      && (HeadOf(data, w).Pad? <==> IsPadding(data[..4]))
      && (HeadOf(data, w).Word? <==> !IsPadding(data[..4]) && !IsLineStart(data[..4]))
      && (!IsPadding(data[..4]) && IsLineStart(data[..4]) ==>
            (HeadOf(data, w).Short? <==>
               |data| < 2 * w + 3 || (data[2 * w + 2] == 0xFF && |data| < 2 * w + 4)))
  {
    hide Le32, IsPadding, IsLineStart;
  }

  lemma {:induction false} JpegWords(items: seq<Item>, w: nat)
    requires AllProper(items, w)
    ensures |JpegOf(items)| % 4 == 0
  {
    if items != [] {
      ProperRest(items, w);
      JpegWords(items[1..], w);
      JpegCons(items[0], items[1..]);
      HeadTail(items, []);
    }
  }

  method Finish(ghost s: seq<byte>, yuvWidth: nat, yuvHeight: nat, ghost done: seq<Item>,
                jpeg: array?<byte>, jpegPtr: nat, yuv: array?<byte>, yuvPtr: nat)
    returns (outcome: Outcome)
    requires Reading(s, yuvWidth, done, |s|, jpeg, jpegPtr, yuv, yuvPtr)
    ensures Parse(s, yuvWidth).ending.Done? && Ends(s, yuvWidth, yuvHeight, jpeg, yuv, outcome)
  {
    assert Parse(s[|s|..], yuvWidth) == Parsed([], Done);
    assert done + [] == done;
    assert Parse(s, yuvWidth) == Parsed(done, Done);
    EncodeParse(s, yuvWidth);
    JpegWords(done, yuvWidth);
    hide Parse, JpegOf, PixelsOf, Splits;
    var jpegSize := None;
    if jpeg != null {
      if jpegPtr == 0 {
        return OutOfBounds;
      }
      var n := StripPadding(jpeg, jpegPtr);
      jpegSize := Some(n);
    }
    outcome := Returned(yuv == null || yuvPtr == yuvWidth * yuvHeight * 2, jpegSize);
  }
}
