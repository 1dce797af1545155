/** How reading an interleaved snapshot ends when the data is not as it should be, and what exactly is taken off
    the end of the JPEG. */
module DemuxEndings {
  import opened Bytes
  import opened Options
  import opened Demux

  /** The padding words, byte by byte as they lie in memory. */
  lemma PaddingBytes(b: seq<byte>)
    requires |b| == 4
    ensures IsPadding(b) <==> b[0] == 0xFF && b[1] == 0xFF
                              && ((b[2] == 0xFF && (b[3] == 0xFF || b[3] == 0x02)) || (b[2] == 0x02 && b[3] == 0xFF))
  {
    var low, high := b[0] as int + 0x100 * b[1] as int, b[2] as int + 0x100 * b[3] as int;
    assert Le32(b) == low + 0x10000 * high && 0 <= low < 0x10000 && 0 <= high < 0x10000;
  }

  lemma {:induction false} ParseBehind(items: seq<Item>, rest: seq<byte>, w: nat)
    requires AllProper(items, w)
    ensures var p := Parse(rest, w); Parse(EncodeAll(items) + rest, w) == Parsed(items + p.items, p.ending)
  {
    hide AllProper, Proper, Encode, Parse;
    var p := Parse(rest, w);
    if items == [] {
      assert EncodeAll(items) + rest == rest && items + p.items == p.items;
    } else {
      ProperRest(items, w);
      ParseBehind(items[1..], rest, w);
      ParseFirst(items[0], EncodeAll(items[1..]) + rest, w);
      assert EncodeAll(items) + rest == Encode(items[0]) + (EncodeAll(items[1..]) + rest);
      assert [items[0]] + (items[1..] + p.items) == items + p.items;
    }
  }

  /** A line whose pixels are not followed by the end code. */
  lemma BrokenHead(pixels: seq<byte>, code: seq<byte>, tail: seq<byte>, w: nat)
    requires |pixels| == 2 * w && |code| == 2 && code != END
    ensures Parse(START + pixels + code + tail, w) == Parsed([], BadEnd(pixels))
  {
    var data := START + pixels + code + tail;
    LineStartBytes(data[..4]);
    assert data[2..2 + 2 * w] == pixels;
    assert data[2 + 2 * w] == code[0] && data[3 + 2 * w] == code[1];
    assert code == [code[0], code[1]];
    ParseHead(data, w);
    hide Parse, Le32, IsPadding;
  }

  /** Such a line fails the call, behind any items and whatever follows it: the pixels stored are those of the
      lines before it and its own, and no JPEG size is given. */
  lemma BrokenLineFails(items: seq<Item>, pixels: seq<byte>, code: seq<byte>, tail: seq<byte>, w: nat, h: nat,
                        wantsJpeg: bool, wantsYuv: bool)
    requires AllProper(items, w) && |pixels| == 2 * w && |code| == 2 && code != END
    ensures var p := Parse(EncodeAll(items) + (START + pixels + code + tail), w);
      && p == Parsed(items, BadEnd(pixels)) && Stored(p) == PixelsOf(items) + pixels
      && Answer(p, wantsJpeg, wantsYuv, w, h) == Returned(false, None)
  {
    hide Parse, EncodeAll, AllProper;
    BrokenHead(pixels, code, tail, w);
    ParseBehind(items, START + pixels + code + tail, w);
    assert items + [] == items;
  }

  /** Data that breaks off inside a word is read beyond its end. */
  lemma ShortDataOverruns(items: seq<Item>, rest: seq<byte>, w: nat, h: nat, wantsJpeg: bool, wantsYuv: bool)
    requires AllProper(items, w) && 0 < |rest| < 4
    ensures Answer(Parse(EncodeAll(items) + rest, w), wantsJpeg, wantsYuv, w, h) == OutOfBounds
  {
    ParseBehind(items, rest, w);
    assert Parse(rest, w) == Parsed([], Overrun);
    hide Parse, EncodeAll, AllProper;
  }

  /** With the wrong number of lines the call fails if the lines are wanted, but the JPEG is as it should be. */
  lemma LinesDecide(j: seq<byte>, items: seq<Item>, w: nat, h: nat, wantsYuv: bool)
    requires AllProper(items, w) && JpegOf(items) == Padded(j) && w > 0
    requires |j| >= 2 && j[|j| - 2..] == EOI
    ensures Answer(Parse(EncodeAll(items), w), true, wantsYuv, w, h)
            == Returned(!wantsYuv || |LinesOf(items)| == h, Some(|j|))
  {
    assert j[|j| - 1] == EOI[1];
    hide Parse, EncodeAll, AllProper, JpegOf, LinesOf, Flatten, Strip;
    ParseEncode(items, w);
    StripFill(j, (4 - |j| % 4) % 4, 3);
    LinesSize(items, w);
    var n := |LinesOf(items)|;
    if n != h {
      SizesDiffer(w, n, h);
    }
  }

  lemma SizesDiffer(w: nat, n: nat, h: nat)
    requires w > 0 && n != h
    ensures w * n * 2 != w * h * 2
  {
    var difference: int := n - h;
    assert w * n - w * h == w * difference;
    assert w * difference != 0;
  }

  /** What is taken off the end: FF bytes only, no more than n of them, and all there are up to that. */
  lemma {:induction false} StripTakes(s: seq<byte>, n: nat) returns (k: nat)
    ensures k <= n && s == Strip(s, n) + Fill(k)
    ensures k == n || Strip(s, n) == [] || Strip(s, n)[|Strip(s, n)| - 1] != 0xFF
  {
    if n > 0 && s != [] && s[|s| - 1] == 0xFF {
      var init := s[..|s| - 1];
      k := StripTakes(init, n - 1);
      assert s == init + [0xFF];
      assert Fill(k + 1) == Fill(k) + [0xFF];
      assert s == Strip(init, n - 1) + (Fill(k) + [0xFF]);
      k := k + 1;
    } else {
      k := 0;
      assert s + Fill(0) == s;
    }
  }
}
