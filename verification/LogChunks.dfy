/** The charger's replay of the last kernel log: a buffer cut in place into chunks for klog_write. */
module LogChunks {
  const MAX_LOG: nat := 32768 // LAST_KMSG_MAX_SZ
  const MAX_CHUNK: nat := 256 // MAX_KLOG_WRITE_BUF_SZ
  const NUL: char := '\0'

  /** memrchr: one past the last newline of s, or 0. */
  function AfterLastNewline(s: seq<char>): (r: nat)
    ensures r <= |s|
    ensures r > 0 ==> s[r - 1] == '\n'
    ensures forall k | r <= k < |s| :: s[k] != '\n'
  {
    if s == [] then 0
    else if s[|s| - 1] == '\n' then |s|
    else AfterLastNewline(s[..|s| - 1])
  }

  function Window(s: seq<char>): nat {
    if |s| < MAX_CHUNK then |s| else MAX_CHUNK
  }

  /** Length of the first chunk: up to the last newline among all but the last byte of the window,
      or the whole window if there is none there. */
  function Cut(s: seq<char>): (cnt: nat)
    requires s != []
    ensures 0 < cnt <= Window(s)
  {
    var nl := AfterLastNewline(s[..Window(s) - 1]);
    if nl > 0 then nl else Window(s)
  }

  function Chunks(s: seq<char>): seq<seq<char>> {
    if s == [] then [] else [s[..Cut(s)]] + Chunks(s[Cut(s)..])
  }

  function Concat(chunks: seq<seq<char>>): seq<char> {
    if chunks == [] then [] else chunks[0] + Concat(chunks[1..])
  }

  function Tail(s: seq<char>): seq<char> {
    if |s| < MAX_LOG then s else s[|s| - MAX_LOG..]
  }

  /** A chunk that is neither full nor the last one ends a line. */
  ghost predicate GoodChunks(chunks: seq<seq<char>>) {
    forall k | 0 <= k < |chunks| ::
      && 0 < |chunks[k]| <= MAX_CHUNK
      && (chunks[k][|chunks[k]| - 1] == '\n' || |chunks[k]| == MAX_CHUNK || k == |chunks| - 1)
  }

  lemma GoodCons(c: seq<char>, rest: seq<seq<char>>)
    requires GoodChunks(rest) && 0 < |c| <= MAX_CHUNK
    requires c[|c| - 1] == '\n' || |c| == MAX_CHUNK || rest == []
    ensures GoodChunks([c] + rest)
  {
    var all := [c] + rest;
    forall k | 0 <= k < |all|
      ensures && 0 < |all[k]| <= MAX_CHUNK
              && (all[k][|all[k]| - 1] == '\n' || |all[k]| == MAX_CHUNK || k == |all| - 1)
    {
      if k > 0 {
        assert all[k] == rest[k - 1];
      }
    }
  }

  lemma {:induction false} ChunksPartition(s: seq<char>)
    ensures Concat(Chunks(s)) == s
    ensures GoodChunks(Chunks(s))
  {
    hide Cut, AfterLastNewline, GoodChunks, Chunks;
    ChunksUnfold(s);
    if s != [] {
      var first, rest := s[..Cut(s)], s[Cut(s)..];
      ChunksPartition(rest);
      CutEndsLine(s);
      if rest == [] {
        ChunksUnfold(rest);
      }
      GoodCons(first, Chunks(rest));
      ConcatCons(first, Chunks(rest));
      assert first + rest == s;
    } else {
      NoChunks();
    }
  }

  lemma NoChunks()
    ensures Concat([]) == [] && GoodChunks([])
  {
  }

  lemma ConcatCons(c: seq<char>, rest: seq<seq<char>>)
    ensures Concat([c] + rest) == c + Concat(rest)
  {
    assert ([c] + rest)[1..] == rest;
  }

  lemma CutEndsLine(s: seq<char>)
    requires s != []
    ensures s[Cut(s) - 1] == '\n' || Cut(s) == MAX_CHUNK || s[Cut(s)..] == []
  {
  }

  /** A chunk reaches as far as it can: to the last line end among all but the last byte of its window, or over the
      whole window. */
  lemma CutIsLongest(s: seq<char>)
    requires s != []
    ensures Cut(s) == Window(s) || s[Cut(s) - 1] == '\n'
    ensures forall k | Cut(s) <= k < Window(s) - 1 :: s[k] != '\n'
    ensures (exists k :: 0 <= k < Window(s) - 1 && s[k] == '\n') ==> Cut(s) < Window(s)
  {
    var head := s[..Window(s) - 1];
    assert forall k | 0 <= k < |head| :: head[k] == s[k];
  }

  /** What is left of the log from the k-th chunk on is cut in the same way. */
  lemma {:induction false} ChunksFrom(s: seq<char>, k: nat)
    requires k <= |Chunks(s)|
    ensures Chunks(Concat(Chunks(s)[k..])) == Chunks(s)[k..]
  {
    hide Cut, Concat, Chunks;
    ChunksUnfold(s);
    if k == 0 {
      ChunksPartition(s);
      assert Chunks(s)[0..] == Chunks(s);
    } else {
      ChunksFrom(s[Cut(s)..], k - 1);
      assert Chunks(s)[k..] == Chunks(s[Cut(s)..])[k - 1..];
    }
  }

  /** So every chunk of a log takes all the whole lines that fit into its window, but for the window's last byte. */
  lemma EveryChunkIsLongest(s: seq<char>, k: nat)
    requires k < |Chunks(s)|
    ensures var rest, c := Concat(Chunks(s)[k..]), Chunks(s)[k];
      && c == rest[..|c|] && 0 < |c| <= Window(rest)
      && (|c| == Window(rest) || c[|c| - 1] == '\n')
      && forall i | |c| <= i < Window(rest) - 1 :: rest[i] != '\n'
  {
    hide Cut, Concat, Chunks;
    ChunksFrom(s, k);
    var rest := Concat(Chunks(s)[k..]);
    ChunksUnfold(rest);
    assert Chunks(s)[k..][0] == Chunks(s)[k];
    CutIsLongest(rest);
  }

  /** The last 32768 bytes of the log, or all of it. */
  lemma TailIsLast(s: seq<char>)
    ensures |Tail(s)| == (if |s| < MAX_LOG then |s| else MAX_LOG) && s[|s| - |Tail(s)|..] == Tail(s)
  {
  }

  /** What "%s" writes: the bytes before the first NUL. */
  function Printed(s: seq<char>): (r: seq<char>)
    ensures |r| <= |s| && r == s[..|r|] && NUL !in r
    ensures |r| < |s| ==> s[|r|] == NUL
  {
    if s == [] || s[0] == NUL then [] else [s[0]] + Printed(s[1..])
  }

  function AllPrinted(chunks: seq<seq<char>>): seq<char> {
    if chunks == [] then [] else Printed(chunks[0]) + AllPrinted(chunks[1..])
  }

  /** The log comes out whole exactly when it holds no NUL. */
  lemma {:induction false} PrintedWhole(chunks: seq<seq<char>>)
    ensures |AllPrinted(chunks)| <= |Concat(chunks)|
    ensures AllPrinted(chunks) == Concat(chunks) <==> NUL !in Concat(chunks)
  {
    if chunks != [] {
      var c, rest := chunks[0], chunks[1..];
      PrintedWhole(rest);
      if NUL !in c {
        assert Printed(c) == c;
        if AllPrinted(chunks) == Concat(chunks) {
          assert AllPrinted(rest) == AllPrinted(chunks)[|c|..] == Concat(chunks)[|c|..] == Concat(rest);
        }
      } else {
        assert Printed(c) != c;
        assert |AllPrinted(chunks)| < |Concat(chunks)|;
      }
    }
  }

  /** It need not: a log of one NUL prints nothing. */
  lemma NulLogIsNotWhole()
    ensures Chunks([NUL]) == [[NUL]] && AllPrinted(Chunks([NUL])) != Concat(Chunks([NUL]))
  {
    assert [NUL][..Cut([NUL])] == [NUL] && [NUL][Cut([NUL])..] == [];
    ChunksUnfold([NUL]);
    ChunksUnfold([]);
    ChunksPartition([NUL]);
    assert NUL in [NUL];
    PrintedWhole(Chunks([NUL]));
  }

  /** dump_last_kmsg on the file's contents buf[..sz], with the spare byte that load_file leaves.
      `handed` are the chunks as cut, `printed` what klog_write made of them. */
  method DumpLastKmsg(buf: array<char>, sz: nat) returns (handed: seq<seq<char>>, printed: seq<char>)
    requires sz < buf.Length
    modifies buf
    ensures buf[..] == old(buf[..])
    ensures handed == Chunks(Tail(old(buf[..sz])))
    ensures printed == AllPrinted(handed)
    ensures Concat(handed) == Tail(old(buf[..sz])) && GoodChunks(handed)
    ensures printed == Tail(old(buf[..sz])) <==> NUL !in Tail(old(buf[..sz]))
  {
    hide Cut, Chunks, GoodChunks, Printed, AllPrinted, Concat;
    NothingPrinted();
    handed, printed := [], [];
    var len: nat := if sz < MAX_LOG then sz else MAX_LOG;
    var ptr: nat := sz - len;
    ghost var tail := buf[ptr..sz];
    assert tail == Tail(buf[..sz]);
    ghost var s := tail;
    assert [] + Chunks(tail) == Chunks(tail);
    while len > 0
      invariant ptr + len == sz
      invariant buf[..] == old(buf[..]) && buf[ptr..sz] == s
      invariant Chunks(tail) == handed + Chunks(s)
      invariant printed == AllPrinted(handed)
      decreases len
    {
      var cnt := ChunkLength(buf, ptr, len);
      var text := WriteChunk(buf, ptr, cnt);
      ghost var chunk := s[..cnt];
      assert buf[ptr..ptr + cnt] == chunk;
      assert buf[ptr + cnt..sz] == s[cnt..];
      HandedOn(tail, handed, s, cnt);
      PrintedSnoc(handed, chunk);
      handed := handed + [buf[ptr..ptr + cnt]];
      printed := printed + text;
      s := s[cnt..];
      len := len - cnt;
      ptr := ptr + cnt;
    }
    assert s == [];
    ChunksUnfold(s);
    assert handed + [] == handed;
    ChunksPartition(tail);
    PrintedWhole(handed);
  }

  /** The search for a line end that shortens the chunk. */
  method ChunkLength(buf: array<char>, ptr: nat, len: nat) returns (cnt: nat)
    requires 0 < len && ptr + len <= buf.Length
    ensures 0 < cnt <= len && cnt == Cut(buf[ptr..ptr + len])
  {
    cnt := if len < MAX_CHUNK then len else MAX_CHUNK;
    assert buf[ptr..ptr + len][..cnt - 1] == buf[ptr..ptr + cnt - 1];
    var nl := AfterLastNewline(buf[ptr..ptr + cnt - 1]);
    if nl > 0 {
      cnt := nl;
    }
  }

  /** The byte after the chunk is replaced by a NUL for the write and then put back. */
  method WriteChunk(buf: array<char>, ptr: nat, cnt: nat) returns (text: seq<char>)
    requires ptr + cnt < buf.Length
    modifies buf
    ensures buf[..] == old(buf[..])
    ensures text == Printed(buf[ptr..ptr + cnt])
  {
    ghost var chunk := buf[ptr..ptr + cnt];
    var yoink := buf[ptr + cnt];
    buf[ptr + cnt] := NUL;
    assert buf[ptr..][..cnt] == chunk;
    PrintedAtNul(buf[ptr..], cnt);
    text := Printed(buf[ptr..]);
    buf[ptr + cnt] := yoink;
    assert buf[ptr..ptr + cnt] == chunk;
  }

  lemma NothingPrinted()
    ensures AllPrinted([]) == []
  {
  }

  lemma ChunksUnfold(s: seq<char>)
    ensures Chunks(s) == if s == [] then [] else [s[..Cut(s)]] + Chunks(s[Cut(s)..])
  {
  }

  /** Handing on the next chunk. */
  lemma HandedOn(tail: seq<char>, handed: seq<seq<char>>, s: seq<char>, cnt: nat)
    requires s != [] && cnt == Cut(s) && Chunks(tail) == handed + Chunks(s)
    ensures Chunks(tail) == (handed + [s[..cnt]]) + Chunks(s[cnt..])
  {
    ChunksUnfold(s);
    hide Chunks;
    assert handed + ([s[..cnt]] + Chunks(s[cnt..])) == (handed + [s[..cnt]]) + Chunks(s[cnt..]);
  }

  lemma {:induction false} PrintedSnoc(chunks: seq<seq<char>>, c: seq<char>)
    ensures AllPrinted(chunks + [c]) == AllPrinted(chunks) + Printed(c)
  {
    if chunks == [] {
      assert [] + [c] == [c] && [c][1..] == [];
      assert Printed(c) + [] == Printed(c) && [] + Printed(c) == Printed(c);
    } else {
      PrintedSnoc(chunks[1..], c);
      assert (chunks + [c])[1..] == chunks[1..] + [c];
      assert Printed(chunks[0]) + (AllPrinted(chunks[1..]) + Printed(c))
          == (Printed(chunks[0]) + AllPrinted(chunks[1..])) + Printed(c);
    }
  }

  lemma {:induction false} PrintedAtNul(s: seq<char>, n: nat)
    requires n < |s| && s[n] == NUL
    ensures Printed(s) == Printed(s[..n])
  {
    if n > 0 && s[0] != NUL {
      PrintedAtNul(s[1..], n - 1);
      assert s[..n][1..] == s[1..][..n - 1];
    }
  }
}
