/** Capture buffering of the audio HAL: fixed driver periods re-blocked into requests of any size, and
    the queue in front of the audio pre-processors. */
module CaptureBuffer {
  import opened Options

  newtype Sample = x: int | -0x8000 <= x < 0x8000

  const PERIOD: nat := 1024 // AUDIO_HW_IN_PERIOD_SZ
  const NO_INIT: int := -19

  /** One pcm_read: a full period, or an error. */
  datatype ReadResult = Period(samples: seq<Sample>) | Failed(status: int)

  /** The driver's answers, call by call. */
  type Feed = nat -> ReadResult

  /** Samples in n frames; a stream is mono or stereo. */
  function Samples(stereo: bool, n: nat): nat {
    if stereo then 2 * n else n
  }

  ghost predicate FeedOk(feed: Feed, stereo: bool) {
    forall k: nat :: match feed(k)
                     case Period(p) => |p| == Samples(stereo, PERIOD)
                     case Failed(status) => status < 0
  }

  // ------------------------------------------------------------------- the simple form: a FIFO

  /** What is buffered, and how many driver calls have been made. */
  datatype Fifo = Fifo(buffered: seq<Sample>, calls: nat)

  datatype Fetched = Fetched(out: seq<Sample>, fifo: Fifo, status: int)

  /** Take n samples, asking the driver for another period whenever nothing is buffered. */
  function Fetch(feed: Feed, stereo: bool, f: Fifo, n: nat): Fetched
    requires FeedOk(feed, stereo)
    decreases n, |f.buffered| == 0
  {
    if n == 0 then Fetched([], f, 0)
    else if f.buffered == [] then
      match feed(f.calls)
      case Failed(status) => Fetched([], Fifo([], f.calls + 1), status)
      case Period(p) => Fetch(feed, stereo, Fifo(p, f.calls + 1), n)
    else
      var k := if n < |f.buffered| then n else |f.buffered|;
      var r := Fetch(feed, stereo, Fifo(f.buffered[k..], f.calls), n - k);
      Fetched(f.buffered[..k] + r.out, r.fifo, r.status)
  }

  /** Everything the driver delivered in calls [from, to). */
  function Periods(feed: Feed, from: nat, to: nat): seq<Sample>
    decreases to as int - from
  {
    if from >= to then []
    else (match feed(from) case Period(p) => p case Failed(_) => []) + Periods(feed, from + 1, to)
  }

  lemma PeriodsFrom(feed: Feed, a: nat, b: nat)
    ensures a >= b ==> Periods(feed, a, b) == []
    ensures a < b ==>
      Periods(feed, a, b) == (match feed(a) case Period(p) => p case Failed(_) => []) + Periods(feed, a + 1, b)
  {
  }

  lemma Associative<T>(a: seq<T>, b: seq<T>, c: seq<T>)
    ensures (a + b) + c == a + (b + c)
  {
  }

  lemma {:induction false} PeriodsJoin(feed: Feed, a: nat, b: nat, c: nat)
    requires a <= b <= c
    ensures Periods(feed, a, b) + Periods(feed, b, c) == Periods(feed, a, c)
    decreases b - a
  {
    hide Periods;
    PeriodsFrom(feed, a, b);
    if a < b {
      PeriodsFrom(feed, a, c);
      PeriodsJoin(feed, a + 1, b, c);
      var p := match feed(a) case Period(p) => p case Failed(_) => [];
      Associative(p, Periods(feed, a + 1, b), Periods(feed, b, c));
    } else {
      assert [] + Periods(feed, b, c) == Periods(feed, a, c);
    }
  }

  /** Putting the same samples in front of both sides. */
  lemma Prefixed<T>(head: seq<T>, rest: seq<T>, more: seq<T>, out: seq<T>, left: seq<T>)
    requires rest + more == out + left
    ensures head + rest + more == head + out + left
  {
    assert head + rest + more == head + (rest + more);
    assert head + out + left == head + (out + left);
  }

  /** Chaining two stages: what the first leaves is what the second starts from. */
  lemma Chained<T>(a: seq<T>, b: seq<T>, c: seq<T>, mid: seq<T>, x: seq<T>, y: seq<T>, end: seq<T>)
    requires a + b == x + mid && mid + c == y + end
    ensures a + (b + c) == (x + y) + end
  {
    assert a + (b + c) == (a + b) + c;
    assert (x + mid) + c == x + (mid + c);
    assert x + (y + end) == (x + y) + end;
  }

  /** Nothing is lost, repeated or reordered: what was buffered and then read from the driver is what
      came out and then what is buffered now. A fetch that succeeds is full, and one that fails leaves
      nothing buffered. */
  lemma {:induction false} FetchConserves(feed: Feed, stereo: bool, f: Fifo, n: nat)
    requires FeedOk(feed, stereo)
    ensures var r := Fetch(feed, stereo, f, n);
            && f.calls <= r.fifo.calls
            && f.buffered + Periods(feed, f.calls, r.fifo.calls) == r.out + r.fifo.buffered
            && (r.status == 0 ==> |r.out| == n)
            && (r.status != 0 ==> r.status < 0 && |r.out| < n && r.fifo.buffered == [])
    decreases n, |f.buffered| == 0
  {
    hide Fetch, Periods;
    var r := Fetch(feed, stereo, f, n);
    if n == 0 {
      FetchNothing(feed, stereo, f);
      PeriodsFrom(feed, f.calls, f.calls);
    } else if f.buffered == [] {
      FetchReads(feed, stereo, f, n);
      PeriodsFrom(feed, f.calls, r.fifo.calls);
      match feed(f.calls)
      case Failed(status) =>
        PeriodsFrom(feed, f.calls + 1, f.calls + 1);
      case Period(p) =>
        FetchConserves(feed, stereo, Fifo(p, f.calls + 1), n);
        assert f.buffered + Periods(feed, f.calls, r.fifo.calls) == Periods(feed, f.calls, r.fifo.calls);
    } else {
      var k := if n < |f.buffered| then n else |f.buffered|;
      var rest := Fifo(f.buffered[k..], f.calls);
      FetchTakes(feed, stereo, f, n);
      FetchConserves(feed, stereo, rest, n - k);
      var q := Fetch(feed, stereo, rest, n - k);
      assert f.buffered == f.buffered[..k] + rest.buffered;
      Prefixed(f.buffered[..k], rest.buffered, Periods(feed, f.calls, q.fifo.calls), q.out, q.fifo.buffered);
    }
  }

  lemma FetchNothing(feed: Feed, stereo: bool, f: Fifo)
    requires FeedOk(feed, stereo)
    ensures Fetch(feed, stereo, f, 0) == Fetched([], f, 0)
  {
  }

  /** A fetch from an empty buffer asks the driver first. */
  lemma FetchReads(feed: Feed, stereo: bool, f: Fifo, n: nat)
    requires FeedOk(feed, stereo) && f.buffered == [] && n > 0
    ensures match feed(f.calls)
            case Failed(status) => status < 0 && Fetch(feed, stereo, f, n) == Fetched([], Fifo([], f.calls + 1), status)
            case Period(p) => p != [] && Fetch(feed, stereo, f, n) == Fetch(feed, stereo, Fifo(p, f.calls + 1), n)
  {
  }

  /** The size of the requests does not matter: one fetch of m + n is a fetch of m, then one of n. */
  lemma {:induction false} FetchSplits(feed: Feed, stereo: bool, f: Fifo, m: nat, n: nat)
    requires FeedOk(feed, stereo)
    requires Fetch(feed, stereo, f, m).status == 0
    ensures var r := Fetch(feed, stereo, f, m);
            var q := Fetch(feed, stereo, r.fifo, n);
            Fetch(feed, stereo, f, m + n) == Fetched(r.out + q.out, q.fifo, q.status)
    decreases m, |f.buffered| == 0
  {
    hide Fetch;
    var r := Fetch(feed, stereo, f, m);
    var q := Fetch(feed, stereo, r.fifo, n);
    if m == 0 {
      FetchNothing(feed, stereo, f);
      assert r.out + q.out == q.out;
    } else if f.buffered == [] {
      FetchReads(feed, stereo, f, m);
      FetchReads(feed, stereo, f, m + n);
      FetchSplits(feed, stereo, Fifo(feed(f.calls).samples, f.calls + 1), m, n);
    } else if m < |f.buffered| {
      FetchFromBuffer(feed, stereo, f, m, n);
    } else {
      var k, rest := |f.buffered|, Fifo([], f.calls);
      FetchDrains(feed, stereo, f, m);
      FetchDrains(feed, stereo, f, m + n);
      FetchSplits(feed, stereo, rest, m - k, n);
      assert m + n - k == m - k + n;
      Associative(f.buffered, Fetch(feed, stereo, rest, m - k).out, q.out);
    }
  }

  /** A fetch takes what it can from the buffer, and what is then missing as a fetch of its own. */
  lemma FetchTakes(feed: Feed, stereo: bool, f: Fifo, m: nat)
    requires FeedOk(feed, stereo) && f.buffered != []
    ensures Fetch(feed, stereo, f, 0) == Fetched([], f, 0)
    ensures var k := if m < |f.buffered| then m else |f.buffered|;
            var r := Fetch(feed, stereo, Fifo(f.buffered[k..], f.calls), m - k);
            Fetch(feed, stereo, f, m) == Fetched(f.buffered[..k] + r.out, r.fifo, r.status)
  {
    hide FeedOk;
  }

  /** A fetch that takes all that is buffered. */
  lemma FetchDrains(feed: Feed, stereo: bool, f: Fifo, m: nat)
    requires FeedOk(feed, stereo) && f.buffered != [] && m >= |f.buffered|
    ensures var r := Fetch(feed, stereo, Fifo([], f.calls), m - |f.buffered|);
            Fetch(feed, stereo, f, m) == Fetched(f.buffered + r.out, r.fifo, r.status)
  {
    hide FeedOk, Fetch;
    FetchTakes(feed, stereo, f, m);
    assert f.buffered[..|f.buffered|] == f.buffered && f.buffered[|f.buffered|..] == [];
  }

  lemma FetchFromBuffer(feed: Feed, stereo: bool, f: Fifo, m: nat, n: nat)
    requires FeedOk(feed, stereo) && 0 < m < |f.buffered|
    ensures var q := Fetch(feed, stereo, Fifo(f.buffered[m..], f.calls), n);
            && Fetch(feed, stereo, f, m) == Fetched(f.buffered[..m], Fifo(f.buffered[m..], f.calls), 0)
            && Fetch(feed, stereo, f, m + n) == Fetched(f.buffered[..m] + q.out, q.fifo, q.status)
  {
    hide FeedOk, Fetch;
    var g := Fifo(f.buffered[m..], f.calls);
    FetchTakes(feed, stereo, f, m);
    FetchTakes(feed, stereo, g, n);
    assert f.buffered[..m] + [] == f.buffered[..m];
    FetchTakes(feed, stereo, f, m + n);
    var k := if m + n < |f.buffered| then m + n else |f.buffered|;
    assert f.buffered[k..] == g.buffered[k - m..] && f.buffered[..k] == f.buffered[..m] + g.buffered[..k - m];
    Associative(f.buffered[..m], g.buffered[..k - m],
                Fetch(feed, stereo, Fifo(f.buffered[k..], f.calls), m + n - k).out);
  }

  /** A sequence of reads since the stream was opened. */
  function FetchAll(feed: Feed, stereo: bool, f: Fifo, sizes: seq<nat>): Fetched
    requires FeedOk(feed, stereo)
  {
    if sizes == [] then Fetched([], f, 0)
    else
      var r := FetchAll(feed, stereo, f, sizes[..|sizes| - 1]);
      if r.status != 0 then r
      else
        var q := Fetch(feed, stereo, r.fifo, sizes[|sizes| - 1]);
        Fetched(r.out + q.out, q.fifo, q.status)
  }

  /** Lossless re-blocking: since open, the concatenated output and then the buffered frames are the
      concatenated periods read from the driver, whatever the request sizes were. */
  lemma {:induction false} ReblockingIsLossless(feed: Feed, stereo: bool, start: nat, sizes: seq<nat>)
    requires FeedOk(feed, stereo)
    ensures var r := FetchAll(feed, stereo, Fifo([], start), sizes);
            && start <= r.fifo.calls
            && r.out + r.fifo.buffered == Periods(feed, start, r.fifo.calls)
  {
    if sizes != [] {
      var init, last := sizes[..|sizes| - 1], sizes[|sizes| - 1];
      ReblockingIsLossless(feed, stereo, start, init);
      var r := FetchAll(feed, stereo, Fifo([], start), init);
      if r.status == 0 {
        var q := Fetch(feed, stereo, r.fifo, last);
        FetchConserves(feed, stereo, r.fifo, last);
        PeriodsJoin(feed, start, r.fifo.calls, q.fifo.calls);
        Prefixed(r.out, r.fifo.buffered, Periods(feed, r.fifo.calls, q.fifo.calls), q.out, q.fifo.buffered);
      }
    }
  }

  // ----------------------------------------------------------- the simple form: pre-processing

  /** What one call of process() did: frames consumed, samples produced. */
  datatype Effected = Effected(consumed: nat, output: seq<Sample>)

  /** The chain of pre-processors: answer to the k-th call, given the samples offered and the room. */
  type Effect = (nat, seq<Sample>, nat) -> Effected

  /** It consumes at most what it is offered and produces at most the room given. */
  ghost predicate EffectOk(e: Effect, stereo: bool) {
    forall k: nat, s: seq<Sample>, room: nat ::
      && Samples(stereo, e(k, s, room).consumed) <= |s|
      && |e(k, s, room).output| <= Samples(stereo, room)
      && (stereo ==> |e(k, s, room).output| % 2 == 0)
  }

  /** The input buffer, the pre-processing queue, and how often process() has been called. */
  datatype Proc = Proc(fifo: Fifo, queue: seq<Sample>, calls: nat)

  /** One pass of the loop in processFrames. */
  datatype Passed = Passed(proc: Proc, accepted: seq<Sample>, consumed: seq<Sample>, output: seq<Sample>, status: int)

  function Pass(feed: Feed, e: Effect, stereo: bool, p: Proc, frames: nat, room: nat): Passed
    requires FeedOk(feed, stereo) && EffectOk(e, stereo)
  {
    var want := Samples(stereo, frames);
    var r := if |p.queue| < want then Fetch(feed, stereo, p.fifo, want - |p.queue|) else Fetched([], p.fifo, 0);
    if r.status != 0 then Passed(p.(fifo := r.fifo), [], [], [], r.status)
    else
      var q := p.queue + r.out;
      var x := e(p.calls, q, room);
      var k := Samples(stereo, x.consumed);
      Passed(Proc(r.fifo, q[k..], p.calls + 1), r.out, q[..k], x.output, 0)
  }

  datatype Processed = Processed(proc: Proc, accepted: seq<Sample>, consumed: seq<Sample>, output: seq<Sample>,
                                 status: int, done: bool)

  /** The loop itself, for at most `passes` passes: an effect may consume for ever without producing. */
  function Process(feed: Feed, e: Effect, stereo: bool, p: Proc, frames: nat, room: nat, passes: nat): Processed
    requires FeedOk(feed, stereo) && EffectOk(e, stereo) && room <= frames
    decreases passes
  {
    if room == 0 then Processed(p, [], [], [], 0, true)
    else if passes == 0 then Processed(p, [], [], [], 0, false)
    else
      var x := Pass(feed, e, stereo, p, frames, room);
      if x.status != 0 then Processed(x.proc, [], [], [], x.status, true)
      else
        var y := Process(feed, e, stereo, x.proc, frames, room - Frames(stereo, |x.output|), passes - 1);
        y.(accepted := x.accepted + y.accepted, consumed := x.consumed + y.consumed, output := x.output + y.output)
  }

  function Frames(stereo: bool, samples: nat): nat {
    if stereo then samples / 2 else samples
  }

  lemma PassConserves(feed: Feed, e: Effect, stereo: bool, p: Proc, frames: nat, room: nat)
    requires FeedOk(feed, stereo) && EffectOk(e, stereo)
    ensures var x := Pass(feed, e, stereo, p, frames, room);
            && p.queue + x.accepted == x.consumed + x.proc.queue
            && p.fifo.calls <= x.proc.fifo.calls
            && (x.status == 0 ==> p.fifo.buffered + Periods(feed, p.fifo.calls, x.proc.fifo.calls)
                                  == x.accepted + x.proc.fifo.buffered)
            && (x.status != 0 ==> x.status < 0 && x.proc.queue == p.queue)
            && |x.output| <= Samples(stereo, room)
            && Samples(stereo, Frames(stereo, |x.output|)) == |x.output|
            && (|p.queue| <= Samples(stereo, frames) ==> |x.proc.queue| <= Samples(stereo, frames))
  {
    var want := Samples(stereo, frames);
    if |p.queue| < want {
      FetchConserves(feed, stereo, p.fifo, want - |p.queue|);
    }
  }

  /** The queue is a FIFO: what was queued and then successfully read is what the effect has consumed
      and then what is queued now; and the output never exceeds the request. */
  lemma {:induction false} QueueIsFifo(feed: Feed, e: Effect, stereo: bool, p: Proc, frames: nat, room: nat, passes: nat)
    requires FeedOk(feed, stereo) && EffectOk(e, stereo) && room <= frames
    ensures var y := Process(feed, e, stereo, p, frames, room, passes);
            && p.queue + y.accepted == y.consumed + y.proc.queue
            && p.fifo.calls <= y.proc.fifo.calls
            && (y.status == 0 ==> p.fifo.buffered + Periods(feed, p.fifo.calls, y.proc.fifo.calls)
                                  == y.accepted + y.proc.fifo.buffered)
            && |y.output| <= Samples(stereo, room)
            && (y.done && y.status == 0 ==> |y.output| == Samples(stereo, room))
            && (|p.queue| <= Samples(stereo, frames) ==> |y.proc.queue| <= Samples(stereo, frames))
    decreases passes
  {
    hide Pass, FeedOk, EffectOk;
    if room > 0 && passes > 0 {
      PassConserves(feed, e, stereo, p, frames, room);
      var x := Pass(feed, e, stereo, p, frames, room);
      if x.status == 0 {
        var left := room - Frames(stereo, |x.output|);
        var y := Process(feed, e, stereo, x.proc, frames, left, passes - 1);
        QueueIsFifo(feed, e, stereo, x.proc, frames, left, passes - 1);
        Chained(p.queue, x.accepted, y.accepted, x.proc.queue, x.consumed, y.consumed, y.proc.queue);
        if y.status == 0 {
          var (a, b, c) := (p.fifo.calls, x.proc.fifo.calls, y.proc.fifo.calls);
          PeriodsJoin(feed, a, b, c);
          Chained(p.fifo.buffered, Periods(feed, a, b), Periods(feed, b, c),
                  x.proc.fifo.buffered, x.accepted, y.accepted, y.proc.fifo.buffered);
        }
      }
    }
  }

  /** The bound on the passes is no more than that: a loop that has ended within some bound ends in the same way
      under every larger one. */
  lemma {:induction false} BoundDoesNotMatter(feed: Feed, e: Effect, stereo: bool, p: Proc, frames: nat, room: nat,
                                             passes: nat, more: nat)
    requires FeedOk(feed, stereo) && EffectOk(e, stereo) && room <= frames && passes <= more
    requires Process(feed, e, stereo, p, frames, room, passes).done
    ensures Process(feed, e, stereo, p, frames, room, more) == Process(feed, e, stereo, p, frames, room, passes)
    decreases passes
  {
    hide FeedOk, EffectOk, Pass;
    if room > 0 && passes > 0 {
      var x := Pass(feed, e, stereo, p, frames, room);
      if x.status == 0 {
        PassFits(feed, e, stereo, p, frames, room);
        BoundDoesNotMatter(feed, e, stereo, x.proc, frames, room - Frames(stereo, |x.output|), passes - 1, more - 1);
      }
    }
  }

  lemma PassFits(feed: Feed, e: Effect, stereo: bool, p: Proc, frames: nat, room: nat)
    requires FeedOk(feed, stereo) && EffectOk(e, stereo)
    ensures Frames(stereo, |Pass(feed, e, stereo, p, frames, room).output|) <= room
  {
    hide FeedOk, Fetch;
  }

  /** An effect that answers every call with something. */
  ghost predicate Productive(e: Effect) {
    forall k: nat, s: seq<Sample>, room: nat :: room > 0 ==> e(k, s, room).output != []
  }

  /** With such an effect the loop ends, after no more passes than frames were asked for. */
  lemma {:induction false} ProductiveEffectEnds(feed: Feed, e: Effect, stereo: bool, p: Proc, frames: nat, room: nat,
                                               passes: nat)
    requires FeedOk(feed, stereo) && EffectOk(e, stereo) && Productive(e) && room <= frames && room <= passes
    ensures Process(feed, e, stereo, p, frames, room, passes).done
    decreases passes
  {
    hide FeedOk, EffectOk, Productive, Pass;
    if room > 0 {
      var x := Pass(feed, e, stereo, p, frames, room);
      if x.status == 0 {
        PassFits(feed, e, stereo, p, frames, room);
        PassProduces(feed, e, stereo, p, frames, room);
        ProductiveEffectEnds(feed, e, stereo, x.proc, frames, room - Frames(stereo, |x.output|), passes - 1);
      }
    }
  }

  lemma PassProduces(feed: Feed, e: Effect, stereo: bool, p: Proc, frames: nat, room: nat)
    requires FeedOk(feed, stereo) && EffectOk(e, stereo) && Productive(e) && room > 0
    requires Pass(feed, e, stereo, p, frames, room).status == 0
    ensures Frames(stereo, |Pass(feed, e, stereo, p, frames, room).output|) > 0
  {
    hide FeedOk, Fetch;
  }

  /** An effect that only consumes: unless a read fails, the loop never ends. */
  lemma {:induction false} SilentEffectNeverEnds(feed: Feed, e: Effect, stereo: bool, p: Proc, frames: nat, room: nat,
                                                passes: nat)
    requires FeedOk(feed, stereo) && EffectOk(e, stereo) && 0 < room <= frames
    requires forall k: nat, s: seq<Sample>, n: nat :: e(k, s, n).output == []
    ensures var y := Process(feed, e, stereo, p, frames, room, passes); y.done ==> y.status != 0
    decreases passes
  {
    hide FeedOk, EffectOk, Fetch;
    if passes > 0 {
      var x := Pass(feed, e, stereo, p, frames, room);
      if x.status == 0 {
        SilentEffectNeverEnds(feed, e, stereo, x.proc, frames, room, passes - 1);
      }
    }
  }

  /** A sequence of processFrames calls since the stream was opened. */
  function ProcessAll(feed: Feed, e: Effect, stereo: bool, p: Proc, sizes: seq<nat>, passes: nat): Processed
    requires FeedOk(feed, stereo) && EffectOk(e, stereo)
  {
    if sizes == [] then Processed(p, [], [], [], 0, true)
    else
      var x := ProcessAll(feed, e, stereo, p, sizes[..|sizes| - 1], passes);
      if x.status != 0 || !x.done then x
      else
        var n := sizes[|sizes| - 1];
        var y := Process(feed, e, stereo, x.proc, n, n, passes);
        y.(accepted := x.accepted + y.accepted, consumed := x.consumed + y.consumed, output := x.output + y.output)
  }

  /** End to end, since any open, the first or a later one, and as long as no read fails: the periods of the
      driver are what the effect has consumed, then the pre-processing queue, then the capture buffer. */
  lemma {:induction false} CaptureIsLossless(feed: Feed, e: Effect, stereo: bool, start: nat, calls: nat,
                                            sizes: seq<nat>, passes: nat)
    requires FeedOk(feed, stereo) && EffectOk(e, stereo)
    ensures var y := ProcessAll(feed, e, stereo, Proc(Fifo([], start), [], calls), sizes, passes);
            && start <= y.proc.fifo.calls
            && y.accepted == y.consumed + y.proc.queue
            && (y.status == 0 ==>
                  Periods(feed, start, y.proc.fifo.calls) == y.consumed + y.proc.queue + y.proc.fifo.buffered)
  {
    hide Process, FeedOk, EffectOk;
    if sizes != [] {
      var init, n := sizes[..|sizes| - 1], sizes[|sizes| - 1];
      CaptureIsLossless(feed, e, stereo, start, calls, init, passes);
      var x := ProcessAll(feed, e, stereo, Proc(Fifo([], start), [], calls), init, passes);
      if x.status == 0 && x.done {
        QueueIsFifo(feed, e, stereo, x.proc, n, n, passes);
        var y := Process(feed, e, stereo, x.proc, n, n, passes);
        assert [] + x.accepted == x.accepted && [] + (x.accepted + y.accepted) == x.accepted + y.accepted;
        Chained([], x.accepted, y.accepted, x.proc.queue, x.consumed, y.consumed, y.proc.queue);
        if y.status == 0 {
          var (a, b, c) := (start, x.proc.fifo.calls, y.proc.fifo.calls);
          PeriodsJoin(feed, a, b, c);
          assert [] + Periods(feed, a, b) == Periods(feed, a, b);
          assert [] + (Periods(feed, a, b) + Periods(feed, b, c)) == Periods(feed, a, c);
          Chained([], Periods(feed, a, b), Periods(feed, b, c),
                  x.proc.fifo.buffered, x.accepted, y.accepted, y.proc.fifo.buffered);
        }
      }
    }
  }
}
