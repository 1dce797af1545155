/** What the audio pre-processors are given and what becomes of their answers, over any number of passes and
    calls. */
module CaptureEffects {
  import opened Options
  import opened CaptureBuffer

  /** One call of process(): the frames offered, the room for the answer, and the answer. */
  datatype Call = Call(offered: seq<Sample>, room: nat, answer: Effected)

  /** What the call takes from the frames offered. */
  function Taken(stereo: bool, c: Call): seq<Sample> {
    var n := Samples(stereo, c.answer.consumed);
    if n <= |c.offered| then c.offered[..n] else c.offered
  }

  /** All that is taken, and all that is answered, call after call. */
  function Inputs(stereo: bool, calls: seq<Call>): seq<Sample> {
    if calls == [] then [] else Inputs(stereo, calls[..|calls| - 1]) + Taken(stereo, calls[|calls| - 1])
  }

  function Outputs(calls: seq<Call>): seq<Sample> {
    if calls == [] then [] else Outputs(calls[..|calls| - 1]) + calls[|calls| - 1].answer.output
  }

  /** Samples left over from the call before. */
  function Leftover(stereo: bool, calls: seq<Call>, start: nat): int {
    if calls == [] then start else |calls[|calls| - 1].offered| - |Taken(stereo, calls[|calls| - 1])|
  }

  /** The k-th call is answered by the effect and offered the frames of `data` that the calls before it have not
      taken: those left over, filled up to `frames` if they are fewer. Its room is what is missing to `target`
      samples. */
  ghost predicate CallFits(e: Effect, stereo: bool, first: nat, start: nat, data: seq<Sample>,
                           calls: seq<Call>, k: nat, frames: nat, target: nat)
    requires k < |calls|
  {
    var c, left, want := calls[k], Leftover(stereo, calls[..k], start), Samples(stereo, frames);
    && c.answer == e(first + k, c.offered, c.room)
    && c.room > 0
    && |Outputs(calls[..k])| + Samples(stereo, c.room) == target
    && Inputs(stereo, calls[..k]) + c.offered <= data
    && |c.offered| == if left < want then want else left
  }

  lemma LastInput(stereo: bool, calls: seq<Call>, c: Call)
    ensures Inputs(stereo, calls + [c]) == Inputs(stereo, calls) + Taken(stereo, c)
    ensures Outputs(calls + [c]) == Outputs(calls) + c.answer.output
  {
    assert (calls + [c])[..|calls|] == calls;
  }

  lemma {:induction false} InputsJoin(stereo: bool, a: seq<Call>, b: seq<Call>)
    ensures Inputs(stereo, a + b) == Inputs(stereo, a) + Inputs(stereo, b)
    ensures Outputs(a + b) == Outputs(a) + Outputs(b)
  {
    if b == [] {
      assert a + b == a;
      assert Inputs(stereo, b) == [] && Outputs(b) == [];
    } else {
      hide Inputs, Outputs, Taken;
      var init, last := b[..|b| - 1], b[|b| - 1];
      assert b == init + [last] && a + b == (a + init) + [last];
      InputsJoin(stereo, a, init);
      LastInput(stereo, init, last);
      LastInput(stereo, a + init, last);
      Associative(Inputs(stereo, a), Inputs(stereo, init), Taken(stereo, last));
      Associative(Outputs(a), Outputs(init), last.answer.output);
    }
  }

  /** Calls that follow others. */
  lemma FitsBehind(e: Effect, stereo: bool, first: nat, start: nat, data: seq<Sample>, before: seq<Call>,
                   calls: seq<Call>, k: nat, frames: nat, target: nat)
    requires k < |calls|
    requires Leftover(stereo, before, start) >= 0
    requires CallFits(e, stereo, first + |before|, Leftover(stereo, before, start), data, calls, k, frames, target)
    ensures CallFits(e, stereo, first, start, Inputs(stereo, before) + data, before + calls, |before| + k, frames,
                     |Outputs(before)| + target)
  {
    hide Outputs, Inputs, Taken;
    var all, n := before + calls, |before| + k;
    assert all[..n] == before + calls[..k];
    InputsJoin(stereo, before, calls[..k]);
    Associative(Inputs(stereo, before), Inputs(stereo, calls[..k]), calls[k].offered);
  }

  /** Calls that are followed by others. */
  lemma FitsBefore(e: Effect, stereo: bool, first: nat, start: nat, data: seq<Sample>, more: seq<Sample>,
                   calls: seq<Call>, later: seq<Call>, k: nat, frames: nat, target: nat)
    requires k < |calls| && CallFits(e, stereo, first, start, data, calls, k, frames, target)
    ensures CallFits(e, stereo, first, start, data + more, calls + later, k, frames, target)
  {
    assert (calls + later)[..k] == calls[..k];
  }

  /** The calls of one loop of processFrames: consumed and delivered are what they took and answered. */
  ghost predicate LoopCalls(e: Effect, stereo: bool, p: Proc, y: Processed, calls: seq<Call>, frames: nat, room: nat) {
    && y.proc.calls == p.calls + |calls|
    && y.consumed == Inputs(stereo, calls)
    && y.output == Outputs(calls)
    && |y.proc.queue| == Leftover(stereo, calls, |p.queue|)
    && forall k: nat | k < |calls| ::
         CallFits(e, stereo, p.calls, |p.queue|, p.queue + y.accepted, calls, k, frames, Samples(stereo, room))
  }

  lemma PassCalls(feed: Feed, e: Effect, stereo: bool, p: Proc, frames: nat, room: nat) returns (c: Call)
    requires FeedOk(feed, stereo) && EffectOk(e, stereo) && room > 0
    requires Pass(feed, e, stereo, p, frames, room).status == 0
    ensures var x := Pass(feed, e, stereo, p, frames, room);
            && x.proc.calls == p.calls + 1 && x.consumed == Inputs(stereo, [c]) && x.output == Outputs([c])
            && |x.proc.queue| == Leftover(stereo, [c], |p.queue|)
            && CallFits(e, stereo, p.calls, |p.queue|, p.queue + x.accepted, [c], 0, frames, Samples(stereo, room))
  {
    var want := Samples(stereo, frames);
    if |p.queue| < want {
      FetchConserves(feed, stereo, p.fifo, want - |p.queue|);
    }
    hide Fetch, FeedOk, Periods;
    var x := Pass(feed, e, stereo, p, frames, room);
    var q := p.queue + x.accepted;
    c := Call(q, room, e(p.calls, q, room));
    OneCall(stereo, c);
    var none: seq<Call> := [c][..0];
    assert none == [] && [] + q == q;
    assert |q| == if |p.queue| < want then want else |p.queue|;
    assert Outputs(none) == [] && Inputs(stereo, none) == [];
  }

  lemma PassFails(feed: Feed, e: Effect, stereo: bool, p: Proc, frames: nat, room: nat)
    requires FeedOk(feed, stereo) && EffectOk(e, stereo)
    requires Pass(feed, e, stereo, p, frames, room).status != 0
    ensures var x := Pass(feed, e, stereo, p, frames, room); x.proc.calls == p.calls && x.proc.queue == p.queue
  {
    hide Fetch, FeedOk;
  }

  lemma OneCall(stereo: bool, c: Call)
    ensures Inputs(stereo, [c]) == Taken(stereo, c) && Outputs([c]) == c.answer.output
  {
    var calls, none: seq<Call>, nothing: seq<Sample> := [c], [], [];
    assert calls[..|calls| - 1] == none && calls[|calls| - 1] == c;
    assert Inputs(stereo, none) == nothing && Outputs(none) == nothing;
    assert nothing + Taken(stereo, c) == Taken(stereo, c) && nothing + c.answer.output == c.answer.output;
  }

  /** Over any number of passes, what is delivered is what the effect answered, call by call and in order. */
  lemma {:induction false} OutputIsTheEffects(feed: Feed, e: Effect, stereo: bool, p: Proc, frames: nat, room: nat,
                                             passes: nat) returns (calls: seq<Call>)
    requires FeedOk(feed, stereo) && EffectOk(e, stereo) && room <= frames
    ensures LoopCalls(e, stereo, p, Process(feed, e, stereo, p, frames, room, passes), calls, frames, room)
    decreases passes
  {
    hide FeedOk, EffectOk, Pass;
    calls := [];
    if room > 0 && passes > 0 {
      var x := Pass(feed, e, stereo, p, frames, room);
      if x.status == 0 {
        PassConserves(feed, e, stereo, p, frames, room);
        var c := PassCalls(feed, e, stereo, p, frames, room);
        var left := room - Frames(stereo, |x.output|);
        var y := Process(feed, e, stereo, x.proc, frames, left, passes - 1);
        var rest := OutputIsTheEffects(feed, e, stereo, x.proc, frames, left, passes - 1);
        calls := [c] + rest;
        LoopGoesOn(e, stereo, p, x, y, c, rest, frames, room, left);
      } else {
        PassFails(feed, e, stereo, p, frames, room);
      }
    }
  }

  lemma LoopGoesOn(e: Effect, stereo: bool, p: Proc, x: Passed, y: Processed, c: Call, rest: seq<Call>,
                   frames: nat, room: nat, left: nat)
    requires x.proc.calls == p.calls + 1 && x.consumed == Inputs(stereo, [c]) && x.output == Outputs([c])
    requires |x.proc.queue| == Leftover(stereo, [c], |p.queue|)
    requires CallFits(e, stereo, p.calls, |p.queue|, p.queue + x.accepted, [c], 0, frames, Samples(stereo, room))
    requires p.queue + x.accepted == x.consumed + x.proc.queue
    requires Samples(stereo, room) == |x.output| + Samples(stereo, left)
    requires LoopCalls(e, stereo, x.proc, y, rest, frames, left)
    ensures LoopCalls(e, stereo, p, y.(accepted := x.accepted + y.accepted, consumed := x.consumed + y.consumed,
                                       output := x.output + y.output), [c] + rest, frames, room)
  {
    hide CallFits, Inputs, Outputs, Taken;
    InputsJoin(stereo, [c], rest);
    var data := p.queue + (x.accepted + y.accepted);
    assert data == (p.queue + x.accepted) + y.accepted;
    assert data == x.consumed + (x.proc.queue + y.accepted);
    forall k: nat | k < |[c] + rest|
      ensures CallFits(e, stereo, p.calls, |p.queue|, data, [c] + rest, k, frames, Samples(stereo, room))
    {
      if k == 0 {
        FitsBefore(e, stereo, p.calls, |p.queue|, p.queue + x.accepted, y.accepted, [c], rest, 0, frames,
                   Samples(stereo, room));
      } else {
        FitsBehind(e, stereo, p.calls, |p.queue|, x.proc.queue + y.accepted, [c], rest, k - 1, frames,
                   Samples(stereo, left));
      }
    }
  }

  // ------------------------------------------------------------------------------- many calls

  function Sum(sizes: seq<nat>): nat {
    if sizes == [] then 0 else Sum(sizes[..|sizes| - 1]) + sizes[|sizes| - 1]
  }

  /** The calls of a sequence of requests: each belongs to the request that is then being served, which is the one
      that still misses the room given. */
  ghost predicate RequestCalls(e: Effect, stereo: bool, p: Proc, y: Processed, calls: seq<Call>, sizes: seq<nat>) {
    && y.proc.calls == p.calls + |calls|
    && y.consumed == Inputs(stereo, calls)
    && y.output == Outputs(calls)
    && |y.proc.queue| == Leftover(stereo, calls, |p.queue|)
    && p.queue + y.accepted == y.consumed + y.proc.queue
    && (y.done && y.status == 0 ==> |y.output| == Samples(stereo, Sum(sizes)))
    && forall k: nat | k < |calls| :: Served(e, stereo, p, y, calls, sizes, k)
  }

  ghost predicate Served(e: Effect, stereo: bool, p: Proc, y: Processed, calls: seq<Call>, sizes: seq<nat>, k: nat)
    requires k < |calls|
  {
    exists i: nat :: i < |sizes| && ServesRequest(e, stereo, p, y, calls, sizes, k, i)
  }

  ghost predicate ServesRequest(e: Effect, stereo: bool, p: Proc, y: Processed, calls: seq<Call>, sizes: seq<nat>,
                                k: nat, i: nat)
    requires k < |calls| && i < |sizes|
  {
    && |Outputs(calls[..k])| >= Samples(stereo, Sum(sizes[..i]))
    && CallFits(e, stereo, p.calls, |p.queue|, p.queue + y.accepted, calls, k, sizes[i],
                Samples(stereo, Sum(sizes[..i + 1])))
  }

  /** Over any sequence of processFrames calls, everything delivered is, in order, what the effect answered, and it
      was asked about every frame the driver delivered, in order, from the first it had not taken before. */
  lemma {:induction false} DeliveredIsTheEffects(feed: Feed, e: Effect, stereo: bool, p: Proc, sizes: seq<nat>,
                                                passes: nat) returns (calls: seq<Call>)
    requires FeedOk(feed, stereo) && EffectOk(e, stereo)
    ensures RequestCalls(e, stereo, p, ProcessAll(feed, e, stereo, p, sizes, passes), calls, sizes)
  {
    hide FeedOk, EffectOk, Process;
    calls := [];
    if sizes != [] {
      var n := |sizes| - 1;
      var x := ProcessAll(feed, e, stereo, p, sizes[..n], passes);
      calls := DeliveredIsTheEffects(feed, e, stereo, p, sizes[..n], passes);
      if x.status == 0 && x.done {
        var y := Process(feed, e, stereo, x.proc, sizes[n], sizes[n], passes);
        QueueIsFifo(feed, e, stereo, x.proc, sizes[n], sizes[n], passes);
        var more := OutputIsTheEffects(feed, e, stereo, x.proc, sizes[n], sizes[n], passes);
        RequestFollows(e, stereo, p, x, y, calls, more, sizes);
        calls := calls + more;
      } else {
        RequestNotServed(e, stereo, p, x, calls, sizes);
      }
    }
  }

  lemma RequestNotServed(e: Effect, stereo: bool, p: Proc, x: Processed, calls: seq<Call>, sizes: seq<nat>)
    requires sizes != [] && !(x.status == 0 && x.done)
    requires RequestCalls(e, stereo, p, x, calls, sizes[..|sizes| - 1])
    ensures RequestCalls(e, stereo, p, x, calls, sizes)
  {
    hide CallFits, Inputs, Outputs, Leftover, Sum;
    forall k: nat | k < |calls|
      ensures Served(e, stereo, p, x, calls, sizes, k)
    {
      assert Served(e, stereo, p, x, calls, sizes[..|sizes| - 1], k);
      var i: nat :| i < |sizes| - 1 && ServesRequest(e, stereo, p, x, calls, sizes[..|sizes| - 1], k, i);
      SameRequest(sizes, i);
      assert ServesRequest(e, stereo, p, x, calls, sizes, k, i);
    }
  }

  lemma SameRequest(sizes: seq<nat>, i: nat)
    requires i < |sizes| - 1
    ensures sizes[..|sizes| - 1][..i] == sizes[..i] && sizes[..|sizes| - 1][..i + 1] == sizes[..i + 1]
  {
  }

  lemma RequestFollows(e: Effect, stereo: bool, p: Proc, x: Processed, y: Processed, calls: seq<Call>,
                       more: seq<Call>, sizes: seq<nat>)
    requires sizes != [] && x.status == 0 && x.done
    requires RequestCalls(e, stereo, p, x, calls, sizes[..|sizes| - 1])
    requires var n := sizes[|sizes| - 1];
             && LoopCalls(e, stereo, x.proc, y, more, n, n)
             && x.proc.queue + y.accepted == y.consumed + y.proc.queue
             && (y.done && y.status == 0 ==> |y.output| == Samples(stereo, n))
    ensures RequestCalls(e, stereo, p, y.(accepted := x.accepted + y.accepted, consumed := x.consumed + y.consumed,
                                          output := x.output + y.output), calls + more, sizes)
  {
    hide CallFits, Inputs, Outputs, Taken;
    var n := |sizes| - 1;
    var z := y.(accepted := x.accepted + y.accepted, consumed := x.consumed + y.consumed,
                output := x.output + y.output);
    InputsJoin(stereo, calls, more);
    Chained(p.queue, x.accepted, y.accepted, x.proc.queue, x.consumed, y.consumed, y.proc.queue);
    var data := p.queue + z.accepted;
    assert data == (p.queue + x.accepted) + y.accepted;
    assert data == x.consumed + (x.proc.queue + y.accepted);
    forall k: nat | k < |calls + more|
      ensures Served(e, stereo, p, z, calls + more, sizes, k)
    {
      if k < |calls| {
        assert Served(e, stereo, p, x, calls, sizes[..n], k);
        var i: nat :| i < n && ServesRequest(e, stereo, p, x, calls, sizes[..n], k, i);
        SameRequest(sizes, i);
        assert (calls + more)[..k] == calls[..k];
        FitsBefore(e, stereo, p.calls, |p.queue|, p.queue + x.accepted, y.accepted, calls, more, k, sizes[i],
                   Samples(stereo, Sum(sizes[..i + 1])));
        assert ServesRequest(e, stereo, p, z, calls + more, sizes, k, i);
      } else {
        var j := k - |calls|;
        FitsBehind(e, stereo, p.calls, |p.queue|, x.proc.queue + y.accepted, calls, more, j, sizes[n],
                   Samples(stereo, sizes[n]));
        assert sizes[..n + 1] == sizes;
        assert (calls + more)[..k] == calls + more[..j];
        InputsJoin(stereo, calls, more[..j]);
        assert ServesRequest(e, stereo, p, z, calls + more, sizes, k, n);
      }
    }
  }

  // ------------------------------------------------------------------------------ a plain effect

  /** An effect that hands on what it takes, as it is. */
  ghost predicate HandsThrough(e: Effect, stereo: bool) {
    forall k: nat, s: seq<Sample>, room: nat ::
      Samples(stereo, e(k, s, room).consumed) <= |s| &&
      e(k, s, room).output == s[..Samples(stereo, e(k, s, room).consumed)]
  }

  lemma {:induction false} HandedThrough(e: Effect, stereo: bool, first: nat, calls: seq<Call>)
    requires HandsThrough(e, stereo)
    requires forall k: nat | k < |calls| :: calls[k].answer == e(first + k, calls[k].offered, calls[k].room)
    ensures Outputs(calls) == Inputs(stereo, calls)
  {
    if calls != [] {
      HandedThrough(e, stereo, first, calls[..|calls| - 1]);
    }
  }

  /** Then, since any open and while no read fails, the periods of the driver come out as they are: what is
      delivered, then the pre-processing queue, then the capture buffer. */
  lemma PlainEffectDeliversPeriods(feed: Feed, e: Effect, stereo: bool, start: nat, calls: nat, sizes: seq<nat>,
                                   passes: nat)
    requires FeedOk(feed, stereo) && EffectOk(e, stereo) && HandsThrough(e, stereo)
    ensures var y := ProcessAll(feed, e, stereo, Proc(Fifo([], start), [], calls), sizes, passes);
            y.status == 0 ==>
              Periods(feed, start, y.proc.fifo.calls) == y.output + y.proc.queue + y.proc.fifo.buffered
  {
    hide FeedOk, EffectOk, HandsThrough, ProcessAll, Periods;
    var p := Proc(Fifo([], start), [], calls);
    var y := ProcessAll(feed, e, stereo, p, sizes, passes);
    CaptureIsLossless(feed, e, stereo, start, calls, sizes, passes);
    var made := DeliveredIsTheEffects(feed, e, stereo, p, sizes, passes);
    forall k: nat | k < |made|
      ensures made[k].answer == e(calls + k, made[k].offered, made[k].room)
    {
      assert Served(e, stereo, p, y, made, sizes, k);
      var i: nat :| i < |sizes| && ServesRequest(e, stereo, p, y, made, sizes, k, i);
    }
    HandedThrough(e, stereo, calls, made);
  }
  // ------------------------------------------------------------------------- the driver's part

  /** Calls [from, to) of the driver all delivered a period. */
  ghost predicate AllPeriods(feed: Feed, from: nat, to: nat) {
    forall k: nat | from <= k < to :: feed(k).Period?
  }

  /** The driver is asked only for what is missing, one period at a time, and up to its first failure, whose status is
      the result. */
  lemma {:induction false} FetchAsksDriver(feed: Feed, stereo: bool, f: Fifo, n: nat)
    requires FeedOk(feed, stereo)
    ensures var r := Fetch(feed, stereo, f, n);
            && (|f.buffered| >= n ==> r.fifo.calls == f.calls)
            && (r.status == 0 ==>
                  && AllPeriods(feed, f.calls, r.fifo.calls)
                  && (r.fifo.calls > f.calls ==> |r.fifo.buffered| < Samples(stereo, PERIOD)))
            && (r.status != 0 ==>
                  && f.calls < r.fifo.calls && AllPeriods(feed, f.calls, r.fifo.calls - 1)
                  && feed(r.fifo.calls - 1) == Failed(r.status))
    decreases n, |f.buffered| == 0
  {
    hide Fetch;
    if n == 0 {
      FetchNothing(feed, stereo, f);
    } else if f.buffered == [] {
      FetchReads(feed, stereo, f, n);
      match feed(f.calls)
      case Failed(status) =>
      case Period(p) =>
        FetchAsksDriver(feed, stereo, Fifo(p, f.calls + 1), n);
        LeftOfPeriod(feed, stereo, p, f.calls + 1, n);
    } else {
      var k := if n < |f.buffered| then n else |f.buffered|;
      FetchTakes(feed, stereo, f, n);
      FetchAsksDriver(feed, stereo, Fifo(f.buffered[k..], f.calls), n - k);
    }
  }

  /** Something of the period just read is taken. */
  lemma LeftOfPeriod(feed: Feed, stereo: bool, p: seq<Sample>, calls: nat, n: nat)
    requires FeedOk(feed, stereo) && |p| == Samples(stereo, PERIOD) && n > 0
    ensures var r := Fetch(feed, stereo, Fifo(p, calls), n);
            r.status == 0 && r.fifo.calls == calls ==> |r.fifo.buffered| < |p|
  {
    hide Fetch, Periods;
    FetchConserves(feed, stereo, Fifo(p, calls), n);
    PeriodsFrom(feed, calls, calls);
    assert p + [] == p;
  }

  /** So does a whole loop of pre-processing: it fails with the driver's own status, or not at all. */
  lemma {:induction false} LoopAsksDriver(feed: Feed, e: Effect, stereo: bool, p: Proc, frames: nat, room: nat,
                                         passes: nat)
    requires FeedOk(feed, stereo) && EffectOk(e, stereo) && room <= frames
    ensures var y := Process(feed, e, stereo, p, frames, room, passes);
            && p.fifo.calls <= y.proc.fifo.calls
            && (y.status == 0 ==> AllPeriods(feed, p.fifo.calls, y.proc.fifo.calls))
            && (y.status != 0 ==>
                  && y.done && p.fifo.calls < y.proc.fifo.calls
                  && AllPeriods(feed, p.fifo.calls, y.proc.fifo.calls - 1)
                  && feed(y.proc.fifo.calls - 1) == Failed(y.status))
    decreases passes
  {
    hide Pass, FeedOk, EffectOk;
    if room > 0 && passes > 0 {
      PassConserves(feed, e, stereo, p, frames, room);
      PassAsksDriver(feed, e, stereo, p, frames, room);
      var x := Pass(feed, e, stereo, p, frames, room);
      if x.status == 0 {
        LoopAsksDriver(feed, e, stereo, x.proc, frames, room - Frames(stereo, |x.output|), passes - 1);
      }
    }
  }

  lemma PassAsksDriver(feed: Feed, e: Effect, stereo: bool, p: Proc, frames: nat, room: nat)
    requires FeedOk(feed, stereo) && EffectOk(e, stereo)
    ensures var x := Pass(feed, e, stereo, p, frames, room);
            && p.fifo.calls <= x.proc.fifo.calls
            && (x.status == 0 ==> AllPeriods(feed, p.fifo.calls, x.proc.fifo.calls))
            && (x.status != 0 ==>
                  && p.fifo.calls < x.proc.fifo.calls
                  && AllPeriods(feed, p.fifo.calls, x.proc.fifo.calls - 1)
                  && feed(x.proc.fifo.calls - 1) == Failed(x.status))
  {
    hide Fetch;
    var want := Samples(stereo, frames);
    if |p.queue| < want {
      FetchConserves(feed, stereo, p.fifo, want - |p.queue|);
      FetchAsksDriver(feed, stereo, p.fifo, want - |p.queue|);
    }
  }
}
