/** The capture stream itself: arrays, indices and in-place shifts, proved to compute the FIFO forms of
    CaptureBuffer.dfy. */
module CaptureStream {
  import opened Options
  import opened CaptureBuffer

  /** What a buffer holds after one more piece was put behind the first. */
  lemma Joined<T>(whole: seq<T>, made: seq<T>, piece: seq<T>, tail: seq<T>)
    requires tail == piece && |whole| == |made| + |tail|
    requires forall k | 0 <= k < |made| :: whole[k] == made[k]
    requires forall k | 0 <= k < |tail| :: whole[|made| + k] == tail[k]
    ensures whole == made + piece
  {
  }

  class AudioStreamIn {
    const stereo: bool
    const feed: Feed // the driver
    const effect: Effect // the chain of pre-processors
    const inputBuf: array<Sample>
    var pcm: bool
    var readCalls: nat // pcm_read calls so far
    var readStatus: int
    var inputFramesIn: nat
    var procBuf: array?<Sample>
    var procBufSize: nat
    var procFramesIn: nat
    var processed: nat // process() calls so far

    ghost predicate Valid()
      reads this
    {
      && FeedOk(feed, stereo) && EffectOk(effect, stereo)
      && inputBuf.Length == Samples(stereo, PERIOD)
      && inputFramesIn <= PERIOD
      && procBuf != inputBuf
      && Samples(stereo, procBufSize) <= (if procBuf == null then 0 else procBuf.Length)
      // while the device is open, an error never coexists with buffered frames, and the queue fits
      && (pcm ==> (readStatus != 0 ==> inputFramesIn == 0) && procFramesIn <= procBufSize)
    }

    /** The last inputFramesIn frames of the input buffer. */
    ghost function Buffered(): (s: seq<Sample>)
      requires Valid()
      reads this, inputBuf
      ensures |s| == Samples(stereo, inputFramesIn)
    {
      inputBuf[Samples(stereo, PERIOD - inputFramesIn)..]
    }

    ghost function Queue(): Fifo
      requires Valid()
      reads this, inputBuf
    {
      Fifo(Buffered(), readCalls)
    }

    /** The first procFramesIn frames of the pre-processing buffer. */
    ghost function Pending(): (s: seq<Sample>)
      requires Valid() && pcm
      reads this, procBuf
      ensures |s| == Samples(stereo, procFramesIn)
    {
      if procFramesIn == 0 then [] else procBuf[..Samples(stereo, procFramesIn)]
    }

    ghost function State(): Proc
      requires Valid() && pcm
      reads this, inputBuf, procBuf
    {
      Proc(Queue(), Pending(), processed)
    }

    constructor (st: bool, driver: Feed, chain: Effect)
      requires FeedOk(driver, st) && EffectOk(chain, st)
      ensures Valid() && !pcm && stereo == st && feed == driver && effect == chain
      ensures fresh(inputBuf) && procBuf == null && readCalls == 0
    {
      stereo, feed, effect := st, driver, chain;
      inputBuf := new Sample[Samples(st, PERIOD)];
      pcm, readCalls, readStatus, inputFramesIn := false, 0, 0, 0;
      procBuf, procBufSize, procFramesIn, processed := null, 0, 0, 0;
    }

    /** open_l: a failed open leaves every field but the handle as it was. */
    method Open(ready: bool) returns (ok: bool)
      requires Valid()
      modifies this
      ensures Valid() && ok == ready == pcm
      ensures readCalls == old(readCalls) && processed == old(processed) && readStatus == old(readStatus)
      ensures procBuf == old(procBuf)
      ensures ok ==> State() == Proc(Fifo([], readCalls), [], processed)
      ensures !ok ==> inputFramesIn == old(inputFramesIn) && procFramesIn == old(procFramesIn)
      ensures !ok ==> procBufSize == old(procBufSize)
    {
      pcm := ready;
      if !ready {
        return false;
      }
      inputFramesIn := 0;
      procBufSize := 0;
      procFramesIn := 0;
      return true;
    }

    /** close_l drops the pre-processing buffer but not the count of frames in it. */
    method Close()
      requires Valid()
      modifies this
      ensures Valid() && !pcm && procBuf == null && procBufSize == 0
      ensures readCalls == old(readCalls) && processed == old(processed) && readStatus == old(readStatus)
      ensures inputFramesIn == old(inputFramesIn) && procFramesIn == old(procFramesIn)
    {
      pcm := false;
      procBuf := null;
      procBufSize := 0;
    }

    /** Offers the oldest buffered frames, at most `request` of them, reading a period first if there
        are none. `from` is where they start in the input buffer. */
    method GetNextBuffer(request: nat) returns (from: Option<nat>, count: nat, status: int)
      requires Valid()
      modifies this`readCalls, this`readStatus, this`inputFramesIn, inputBuf
      ensures Valid()
      ensures status == readStatus
      ensures !old(pcm) ==> from.None? && count == 0 && readStatus == NO_INIT
                            && readCalls == old(readCalls) && Buffered() == old(Buffered())
                            && inputFramesIn == old(inputFramesIn)
      ensures pcm && old(inputFramesIn) > 0 ==> Queue() == old(Queue()) && readStatus == old(readStatus) == 0
      ensures pcm && old(inputFramesIn) == 0 ==>
                readCalls == old(readCalls) + 1
                && match feed(old(readCalls))
                   case Period(p) => readStatus == 0 && Buffered() == p
                   case Failed(e) => readStatus == e && Buffered() == []
      ensures from.Some? <==> pcm && readStatus == 0
      ensures from.Some? ==> && count == (if request > inputFramesIn then inputFramesIn else request)
                             && from.value == Samples(stereo, PERIOD - inputFramesIn)
                             && inputFramesIn > 0
                             && from.value + Samples(stereo, count) <= inputBuf.Length
                             && inputBuf[from.value..from.value + Samples(stereo, count)]
                                == Buffered()[..Samples(stereo, count)]
      ensures from.None? ==> count == 0
    {
      if !pcm {
        readStatus := NO_INIT;
        return None, 0, NO_INIT;
      }
      if inputFramesIn == 0 {
        match feed(readCalls) {
          case Failed(e) =>
            readStatus := e;
            readCalls := readCalls + 1;
            return None, 0, e;
          case Period(p) =>
            Fill(inputBuf, p);
            readStatus := 0;
            readCalls := readCalls + 1;
            inputFramesIn := PERIOD;
        }
      }
      count := if request > inputFramesIn then inputFramesIn else request;
      return Some(Samples(stereo, PERIOD - inputFramesIn)), count, readStatus;
    }

    /** pcm_read of a whole period. */
    static method Fill(dst: array<Sample>, p: seq<Sample>)
      requires dst.Length == |p|
      modifies dst
      ensures dst[0..] == dst[..] == p
    {
      forall k | 0 <= k < dst.Length {
        dst[k] := p[k];
      }
      assert dst[..] == p;
    }

    method ReleaseBuffer(count: nat)
      requires Valid() && count <= inputFramesIn
      modifies this`inputFramesIn
      ensures Valid() && inputFramesIn == old(inputFramesIn) - count
      ensures Buffered() == old(Buffered())[Samples(stereo, count)..]
    {
      inputFramesIn := inputFramesIn - count;
    }

    /** One round of the loop in readFrames: at least one frame, or the driver's error. */
    method ReadSome(buffer: array<Sample>, at: nat, frames: nat) returns (count: nat, status: int)
      requires Valid() && pcm && frames > 0
      requires buffer != inputBuf && at + Samples(stereo, frames) <= buffer.Length
      modifies this`readCalls, this`readStatus, this`inputFramesIn, inputBuf, buffer
      ensures Valid() && readStatus == status
      ensures forall k | 0 <= k < buffer.Length && !(at <= k < at + Samples(stereo, frames)) ::
                buffer[k] == old(buffer[k])
      ensures status == 0 ==> 0 < count <= frames
      ensures status == 0 ==>
                Gives(feed, stereo, old(Queue()), Samples(stereo, frames),
                      buffer[at..at + Samples(stereo, count)], Queue())
      ensures status != 0 ==>
                Fetch(feed, stereo, old(Queue()), Samples(stereo, frames)) == Fetched([], Queue(), status)
    {
      hide FeedOk, EffectOk, Fetch, Gives, Buffered;
      ghost var q0 := Queue();
      assert inputFramesIn == 0 <==> q0.buffered == [];
      ReadStep(feed, stereo, q0, Samples(stereo, frames));
      var from;
      from, count, status := GetNextBuffer(frames);
      if from.None? {
        ReleaseBuffer(0);
      } else {
        ghost var q1 := Queue();
        var n := Samples(stereo, count);
        ghost var chunk, after := q1.buffered[..n], Fifo(q1.buffered[n..], q1.calls);
        FetchStep(feed, stereo, q1, Samples(stereo, frames), n);
        GivesAfterRead(feed, stereo, q0, q1, Samples(stereo, frames), chunk, after);
        CopyInto(buffer, at, from.value, n);
        ReleaseBuffer(count);
      }
    }

    /** Fills buffer[base..] with `frames` frames, or returns the driver's error. */
    method ReadLoop(buffer: array<Sample>, base: nat, frames: nat) returns (r: int)
      requires Valid() && pcm
      requires buffer != inputBuf && base + Samples(stereo, frames) <= buffer.Length
      modifies this`readCalls, this`readStatus, this`inputFramesIn, inputBuf, buffer
      ensures Valid()
      ensures var f := Fetch(feed, stereo, old(Queue()), Samples(stereo, frames));
              && Queue() == f.fifo
              && r == (if f.status == 0 then frames else f.status)
              && (f.status == 0 ==> buffer[base..base + Samples(stereo, frames)] == f.out)
              && (f.status != 0 ==> readStatus == f.status)
      ensures forall k | 0 <= k < buffer.Length && !(base <= k < base + Samples(stereo, frames)) ::
                buffer[k] == old(buffer[k])
    {
      hide FeedOk, EffectOk, Fetch, Gives, Buffered;
      var wr: nat := 0;
      ghost var q0, want := Queue(), Samples(stereo, frames);
      GivesNothing(feed, stereo, q0, want);
      assert buffer[base..base] == [];
      while wr < frames
        invariant wr <= frames && Valid() && pcm
        invariant Gives(feed, stereo, q0, want, buffer[base..base + Samples(stereo, wr)], Queue())
        invariant forall k | 0 <= k < buffer.Length && !(base <= k < base + want) :: buffer[k] == old(buffer[k])
      {
        var at := base + Samples(stereo, wr);
        ghost var q, done := Queue(), buffer[base..at];
        var count, status := ReadSome(buffer, at, frames - wr);
        if status != 0 {
          GivesError(feed, stereo, q0, want, done, q);
          return status;
        }
        ghost var chunk := buffer[at..at + Samples(stereo, count)];
        GivesOn(feed, stereo, q0, want, done, q, chunk, Queue());
        assert buffer[base..at + Samples(stereo, count)] == done + chunk;
        wr := wr + count;
      }
      GivesAll(feed, stereo, q0, want, buffer[base..base + want], Queue());
      return wr;
    }

    /** The same on any stream: a closed device has no frames to give. */
    method ReadFrames(buffer: array<Sample>, base: nat, frames: nat) returns (r: int)
      requires Valid()
      requires buffer != inputBuf && base + Samples(stereo, frames) <= buffer.Length
      modifies this`readCalls, this`readStatus, this`inputFramesIn, inputBuf, buffer
      ensures Valid()
      ensures !pcm ==> r == (if frames > 0 then NO_INIT else 0) && Queue() == old(Queue())
      ensures !pcm && frames > 0 ==> readStatus == NO_INIT
      ensures pcm ==>
              var f := Fetch(feed, stereo, old(Queue()), Samples(stereo, frames));
              && Queue() == f.fifo
              && r == (if f.status == 0 then frames else f.status)
              && (f.status == 0 ==> buffer[base..base + Samples(stereo, frames)] == f.out)
              && (f.status != 0 ==> readStatus == f.status)
      ensures forall k | 0 <= k < buffer.Length && !(base <= k < base + Samples(stereo, frames)) ::
                buffer[k] == old(buffer[k])
    {
      hide FeedOk, EffectOk, Fetch;
      if pcm {
        r := ReadLoop(buffer, base, frames);
      } else if frames > 0 {
        var _, count, status := GetNextBuffer(frames);
        ReleaseBuffer(count);
        r := status;
      } else {
        r := 0;
      }
    }

    /** memcpy from the input buffer. */
    method CopyInto(buffer: array<Sample>, to: nat, from: nat, n: nat)
      requires buffer != inputBuf
      requires to + n <= buffer.Length && from + n <= inputBuf.Length
      modifies buffer
      ensures buffer[to..to + n] == inputBuf[from..from + n]
      ensures forall k | 0 <= k < buffer.Length && !(to <= k < to + n) :: buffer[k] == old(buffer[k])
    {
      forall k | 0 <= k < n {
        buffer[to + k] := inputBuf[from + k];
      }
      var b, c := buffer[to..to + n], inputBuf[from..from + n];
      assert forall k | 0 <= k < n :: b[k] == c[k];
    }

    /** realloc: a bigger pre-processing buffer with the same contents. */
    method Grow(frames: nat)
      requires Valid() && pcm && procBufSize < frames
      modifies this`procBuf, this`procBufSize
      ensures Valid() && procBufSize == frames && Pending() == old(Pending()) && Queue() == old(Queue()) && fresh(procBuf)
      ensures procBuf != null && procBuf.Length == Samples(stereo, frames)
    {
      hide FeedOk, EffectOk;
      ghost var before := Pending();
      var grown := new Sample[Samples(stereo, frames)];
      if procBuf != null {
        CopyFront(procBuf, grown, if procBuf.Length < grown.Length then procBuf.Length else grown.Length);
        assert grown[..|before|] == before;
      }
      procBuf, procBufSize := grown, frames;
    }

    static method CopyFront(src: array<Sample>, dst: array<Sample>, n: nat)
      requires src != dst && n <= src.Length && n <= dst.Length
      modifies dst
      ensures forall k | 0 <= k < n :: dst[k] == src[k]
    {
      forall k | 0 <= k < n {
        dst[k] := src[k];
      }
    }

    /** The overlapping memcpy that moves the unconsumed frames to the front, sample by sample upwards. */
    method ShiftDown(from: nat, n: nat)
      requires Valid() && procBuf != null && from + n <= procBuf.Length
      modifies procBuf
      ensures procBuf[..n] == old(procBuf[from..from + n])
    {
      var k := 0;
      while k < n
        invariant k <= n
        invariant forall j | 0 <= j < k :: procBuf[j] == old(procBuf[from + j])
        invariant forall j | k <= j < procBuf.Length :: procBuf[j] == old(procBuf[j])
      {
        procBuf[k] := procBuf[from + k];
        k := k + 1;
      }
    }

    /** Reads behind what the pre-processing buffer holds, up to a number of frames there is room for. */
    method FillUp(frames: nat) returns (status: int)
      requires Valid() && pcm && procFramesIn < frames <= procBufSize && procBuf != null
      modifies this`readCalls, this`readStatus, this`inputFramesIn, this`procFramesIn, inputBuf, procBuf
      ensures Valid() && processed == old(processed)
      ensures var f := Fetch(feed, stereo, old(Queue()), Samples(stereo, frames) - |old(Pending())|);
              && Queue() == f.fifo && status == f.status
              && Pending() == (if status == 0 then old(Pending()) + f.out else old(Pending()))
    {
      hide FeedOk, EffectOk, Fetch;
      ghost var before := Pending();
      var at, n := Samples(stereo, procFramesIn), frames - procFramesIn;
      assert procBuf[..at] == before;
      FetchStatus(feed, stereo, Queue(), Samples(stereo, n));
      ghost var out := Fetch(feed, stereo, Queue(), Samples(stereo, n)).out;
      assert Samples(stereo, n) == Samples(stereo, frames) - |before|;
      var r := ReadFrames(procBuf, at, n);
      if r < 0 {
        assert procBuf[..at] == before;
        return r;
      }
      procFramesIn := procFramesIn + r;
      Joined(procBuf[..at + Samples(stereo, n)], before, out, procBuf[at..at + Samples(stereo, n)]);
      return 0;
    }

    /** The reload at the top of the loop in processFrames. */
    method Reload(frames: nat) returns (status: int)
      requires Valid() && pcm && procFramesIn < frames
      modifies this`readCalls, this`readStatus, this`inputFramesIn, this`procBuf, this`procBufSize, this`procFramesIn,
               inputBuf, procBuf
      ensures Valid() && (procBuf == old(procBuf) || fresh(procBuf)) && procBuf != null
      ensures processed == old(processed)
      ensures var f := Fetch(feed, stereo, old(Queue()), Samples(stereo, frames) - |old(Pending())|);
              && Queue() == f.fifo && status == f.status
              && Pending() == (if status == 0 then old(Pending()) + f.out else old(Pending()))
    {
      hide FeedOk, EffectOk, Fetch;
      if procBufSize < frames {
        Grow(frames);
      }
      status := FillUp(frames);
    }

    /** One pass of the loop in processFrames. */
    method ProcessOnce(buffer: array<Sample>, at: nat, frames: nat, room: nat) returns (count: nat, status: int)
      requires Valid() && pcm && 0 < room <= frames
      requires buffer != inputBuf && buffer != procBuf && at + Samples(stereo, room) <= buffer.Length
      modifies this`readCalls, this`readStatus, this`inputFramesIn, this`procBuf, this`procBufSize, this`procFramesIn,
               this`processed, inputBuf, procBuf, buffer
      ensures Valid() && (procBuf == old(procBuf) || fresh(procBuf))
      ensures var x := Pass(feed, effect, stereo, old(State()), frames, room);
              && State() == x.proc && status == x.status
              && count == Frames(stereo, |x.output|) && count <= room
              && buffer[at..at + Samples(stereo, count)] == x.output
              && (status == 0 ==>
                    x.output == effect(old(processed), old(Pending()) + x.accepted, room).output)
      ensures forall k | 0 <= k < buffer.Length && !(at <= k < at + Samples(stereo, room)) :: buffer[k] == old(buffer[k])
    {
      hide FeedOk, EffectOk, Fetch;
      ghost var p, want := State(), Samples(stereo, frames);
      ghost var f := if |p.queue| < want then Fetch(feed, stereo, p.fifo, want - |p.queue|) else Fetched([], p.fifo, 0);
      assert p.queue + [] == p.queue;
      status := 0;
      if procFramesIn < frames {
        status := Reload(frames);
        if status != 0 {
          return 0, status;
        }
      }
      assert State() == Proc(f.fifo, p.queue + f.out, p.calls) && f.status == 0;
      count := Apply(buffer, at, room);
    }

    /** processFrames, for at most `passes` passes of its loop; r is what the source returns when done. */
    method ProcessFrames(buffer: array<Sample>, frames: nat, passes: nat) returns (r: int, done: bool)
      requires Valid() && pcm
      requires buffer != inputBuf && buffer != procBuf && Samples(stereo, frames) <= buffer.Length
      modifies this`readCalls, this`readStatus, this`inputFramesIn, this`procBuf, this`procBufSize, this`procFramesIn,
               this`processed, inputBuf, procBuf, buffer
      ensures Valid() && (procBuf == old(procBuf) || fresh(procBuf))
      ensures var y := Process(feed, effect, stereo, old(State()), frames, frames, passes);
              && State() == y.proc && done == y.done
              && (done ==> r == if y.status == 0 then frames else y.status)
              && (done && y.status == 0 ==> buffer[..Samples(stereo, frames)] == y.output)
    {
      hide FeedOk, EffectOk, Pass, Process, Continues, State, Pending, Buffered;
      var wr: nat, left: nat := 0, passes;
      ghost var y := Process(feed, effect, stereo, State(), frames, frames, passes);
      ContinuesHere(y);
      assert buffer[..0] == [];
      while wr < frames && left > 0
        invariant wr <= frames && left <= passes && Valid() && pcm
        invariant (procBuf == old(procBuf) || fresh(procBuf)) && buffer != procBuf
        invariant Continues(y, buffer[..Samples(stereo, wr)],
                            Process(feed, effect, stereo, State(), frames, frames - wr, left))
        decreases left
      {
        ghost var p, made := State(), buffer[..Samples(stereo, wr)];
        var count, status := ProcessOnce(buffer, Samples(stereo, wr), frames, frames - wr);
        ContinuesOn(feed, effect, stereo, y, made, p, frames, frames - wr, left);
        if status != 0 {
          return status, true;
        }
        ghost var x := Pass(feed, effect, stereo, p, frames, frames - wr);
        Joined(buffer[..Samples(stereo, wr + count)], made, x.output,
               buffer[Samples(stereo, wr)..Samples(stereo, wr + count)]);
        wr, left := wr + count, left - 1;
      }
      ContinuesEnd(feed, effect, stereo, y, buffer[..Samples(stereo, wr)], State(), frames, frames - wr, left);
      return wr, wr == frames;
    }

    /** The call of process() and what follows it. */
    method Apply(buffer: array<Sample>, at: nat, room: nat) returns (count: nat)
      requires Valid() && pcm
      requires buffer != inputBuf && buffer != procBuf && at + Samples(stereo, room) <= buffer.Length
      modifies this`procFramesIn, this`processed, procBuf, buffer
      ensures Valid() && procBuf == old(procBuf)
      ensures var q := old(Pending());
              var x := effect(old(processed), q, room);
              && Samples(stereo, x.consumed) <= |q|
              && State() == Proc(old(Queue()), q[Samples(stereo, x.consumed)..], old(processed) + 1)
              && count == Frames(stereo, |x.output|) <= room
              && buffer[at..at + Samples(stereo, count)] == x.output
      ensures forall k | 0 <= k < buffer.Length && !(at <= k < at + Samples(stereo, room)) :: buffer[k] == old(buffer[k])
    {
      hide FeedOk, EffectOk;
      ghost var q := Pending();
      var offered := if procBuf == null || procFramesIn == 0 then [] else procBuf[..Samples(stereo, procFramesIn)];
      assert offered == q;
      var x := effect(processed, offered, room);
      EffectBounds(effect, stereo, processed, offered, room);
      count := Produce(buffer, at, room, x.output);
      Consume(x.consumed);
      processed := processed + 1;
      assert Pending() == q[Samples(stereo, x.consumed)..];
    }

    /** process() writes what it made at the place it was given. */
    method Produce(buffer: array<Sample>, at: nat, room: nat, output: seq<Sample>) returns (count: nat)
      requires |output| == Samples(stereo, Frames(stereo, |output|)) <= Samples(stereo, room)
      requires at + Samples(stereo, room) <= buffer.Length
      modifies buffer
      ensures count == Frames(stereo, |output|) <= room && buffer[at..at + Samples(stereo, count)] == output
      ensures forall k | 0 <= k < buffer.Length && !(at <= k < at + Samples(stereo, room)) :: buffer[k] == old(buffer[k])
    {
      forall k | 0 <= k < |output| {
        buffer[at + k] := output[k];
      }
      assert buffer[at..at + |output|] == output;
      count := Frames(stereo, |output|);
    }

    /** The end of a pass: forget what was consumed and move the rest to the front. */
    method Consume(consumed: nat)
      requires Valid() && pcm && consumed <= procFramesIn
      modifies this`procFramesIn, procBuf
      ensures Valid() && Pending() == old(Pending())[Samples(stereo, consumed)..]
      ensures Queue() == old(Queue())
    {
      hide FeedOk, EffectOk;
      ghost var q := Pending();
      procFramesIn := procFramesIn - consumed;
      if procFramesIn > 0 {
        assert procBuf[Samples(stereo, consumed)..Samples(stereo, consumed) + Samples(stereo, procFramesIn)]
            == q[Samples(stereo, consumed)..];
        ShiftDown(Samples(stereo, consumed), Samples(stereo, procFramesIn));
      }
    }
  }

  lemma EffectBounds(e: Effect, stereo: bool, k: nat, s: seq<Sample>, room: nat)
    requires EffectOk(e, stereo)
    ensures var x := e(k, s, room);
            && Samples(stereo, x.consumed) <= |s|
            && |x.output| == Samples(stereo, Frames(stereo, |x.output|)) <= Samples(stereo, room)
  {
  }

  /** The loop as a whole produces `made` and then what `rest` produces, and ends as `rest` does. */
  ghost predicate Continues(y: Processed, made: seq<Sample>, rest: Processed) {
    y.proc == rest.proc && y.status == rest.status && y.done == rest.done && y.output == made + rest.output
  }

  lemma ContinuesHere(y: Processed)
    ensures Continues(y, [], y)
  {
    assert [] + y.output == y.output;
  }

  lemma ContinuesOn(feed: Feed, e: Effect, stereo: bool, y: Processed, made: seq<Sample>,
                    p: Proc, frames: nat, room: nat, passes: nat)
    requires FeedOk(feed, stereo) && EffectOk(e, stereo) && 0 < room <= frames && passes > 0
    requires Continues(y, made, Process(feed, e, stereo, p, frames, room, passes))
    ensures var x := Pass(feed, e, stereo, p, frames, room);
            && Frames(stereo, |x.output|) <= room
            && (if x.status != 0 then y.done && y.status == x.status && y.proc == x.proc
                else Continues(y, made + x.output,
                               Process(feed, e, stereo, x.proc, frames, room - Frames(stereo, |x.output|), passes - 1)))
  {
    hide EffectOk, FeedOk;
    PassConserves(feed, e, stereo, p, frames, room);
    var x := Pass(feed, e, stereo, p, frames, room);
    hide Pass;
    if x.status == 0 {
      var rest := Process(feed, e, stereo, x.proc, frames, room - Frames(stereo, |x.output|), passes - 1);
      assert made + (x.output + rest.output) == (made + x.output) + rest.output;
    }
  }

  lemma ContinuesEnd(feed: Feed, e: Effect, stereo: bool, y: Processed, made: seq<Sample>,
                     p: Proc, frames: nat, room: nat, passes: nat)
    requires FeedOk(feed, stereo) && EffectOk(e, stereo) && room <= frames && (room == 0 || passes == 0)
    requires Continues(y, made, Process(feed, e, stereo, p, frames, room, passes))
    ensures y.proc == p && y.output == made && y.status == 0 && y.done == (room == 0)
  {
    assert made + [] == made;
  }

  /** Fetching n from f starts with `chunk` and goes on from g. */
  ghost predicate Gives(feed: Feed, stereo: bool, f: Fifo, n: nat, chunk: seq<Sample>, g: Fifo)
    requires FeedOk(feed, stereo)
  {
    && |chunk| <= n
    && var rest := Fetch(feed, stereo, g, n - |chunk|);
       Fetch(feed, stereo, f, n) == Fetched(chunk + rest.out, rest.fifo, rest.status)
  }

  /** What one round of the loop takes from the front of the buffer. */
  lemma FetchStep(feed: Feed, stereo: bool, f: Fifo, n: nat, k: nat)
    requires FeedOk(feed, stereo)
    requires 0 < n && f.buffered != []
    requires k == (if n < |f.buffered| then n else |f.buffered|)
    ensures Gives(feed, stereo, f, n, f.buffered[..k], Fifo(f.buffered[k..], f.calls))
  {
    var k' := if n < |f.buffered| then n else |f.buffered|;
    assert k' == k;
    var r := Fetch(feed, stereo, Fifo(f.buffered[k..], f.calls), n - k);
    var g := Fetch(feed, stereo, f, n);
    assert g.fifo == r.fifo;
    assert g.out == f.buffered[..k] + r.out;
    assert g == Fetched(f.buffered[..k] + r.out, r.fifo, r.status);
  }

  /** What it asks the driver for when the buffer is empty. */
  lemma ReadStep(feed: Feed, stereo: bool, f: Fifo, n: nat)
    requires FeedOk(feed, stereo) && n > 0
    ensures f.buffered == [] ==>
              match feed(f.calls)
              case Period(p) => && |p| == Samples(stereo, PERIOD)
                                && Fetch(feed, stereo, f, n) == Fetch(feed, stereo, Fifo(p, f.calls + 1), n)
              case Failed(e) => e < 0 && Fetch(feed, stereo, f, n) == Fetched([], Fifo([], f.calls + 1), e)
  {
  }

  lemma GivesAfterRead(feed: Feed, stereo: bool, f: Fifo, f': Fifo, n: nat, chunk: seq<Sample>, g: Fifo)
    requires FeedOk(feed, stereo) && Gives(feed, stereo, f', n, chunk, g)
    requires Fetch(feed, stereo, f, n) == Fetch(feed, stereo, f', n)
    ensures Gives(feed, stereo, f, n, chunk, g)
  {
  }

  lemma FetchStatus(feed: Feed, stereo: bool, f: Fifo, n: nat)
    requires FeedOk(feed, stereo)
    ensures Fetch(feed, stereo, f, n).status <= 0
  {
    FetchConserves(feed, stereo, f, n);
  }

  lemma GivesNothing(feed: Feed, stereo: bool, f: Fifo, n: nat)
    requires FeedOk(feed, stereo)
    ensures Gives(feed, stereo, f, n, [], f)
  {
    var r := Fetch(feed, stereo, f, n);
    assert [] + r.out == r.out;
  }

  lemma GivesOn(feed: Feed, stereo: bool, f: Fifo, n: nat, a: seq<Sample>, g: Fifo, b: seq<Sample>, h: Fifo)
    requires FeedOk(feed, stereo)
    requires Gives(feed, stereo, f, n, a, g) && Gives(feed, stereo, g, n - |a|, b, h)
    ensures Gives(feed, stereo, f, n, a + b, h)
  {
    var r := Fetch(feed, stereo, h, n - |a| - |b|);
    assert a + (b + r.out) == (a + b) + r.out;
  }

  lemma GivesAll(feed: Feed, stereo: bool, f: Fifo, n: nat, a: seq<Sample>, g: Fifo)
    requires FeedOk(feed, stereo) && Gives(feed, stereo, f, n, a, g) && |a| == n
    ensures Fetch(feed, stereo, f, n) == Fetched(a, g, 0)
  {
    assert Fetch(feed, stereo, g, 0) == Fetched([], g, 0);
    assert a + [] == a;
  }

  lemma GivesError(feed: Feed, stereo: bool, f: Fifo, n: nat, a: seq<Sample>, g: Fifo)
    requires FeedOk(feed, stereo) && Gives(feed, stereo, f, n, a, g)
    ensures var r := Fetch(feed, stereo, g, n - |a|);
            Fetch(feed, stereo, f, n).status == r.status && Fetch(feed, stereo, f, n).fifo == r.fifo
  {
  }
}
