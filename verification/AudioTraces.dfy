/** Runs of the audio protocol, built step by step: two threads from the state in which there is nothing. */
module AudioTraces {
  import opened Options
  import opened AudioHandles
  import opened AudioProtocol

  datatype Trace = Trace(states: seq<System>, moves: seq<Move>)

  ghost predicate IsRun(r: Trace) {
    Run(r.states, r.moves)
  }

  /** The run is at a state of two threads. */
  ghost predicate At(r: Trace, d: Data, owner: map<Lock, nat>, a: Thread, b: Thread) {
    IsRun(r) && r.states[|r.states| - 1] == System(d, owner, [a, b])
  }

  lemma Go(r: Trace, s: System, t: nat, c: Choice) returns (r': Trace)
    requires IsRun(r) && r.states[|r.states| - 1] == s && Enabled(s, t)
    ensures IsRun(r') && r'.states[|r'.states| - 1] == Step(s, t, c)
  {
    hide Step, Enabled;
    r' := Trace(r.states + [Step(s, t, c)], r.moves + [Move(t, c)]);
    forall k | 0 <= k < |r'.moves|
      ensures Enabled(r'.states[k], r'.moves[k].t)
      ensures r'.states[k + 1] == Step(r'.states[k], r'.moves[k].t, r'.moves[k].c)
    {
      if k < |r.moves| {
        assert r'.states[k] == r.states[k] && r'.states[k + 1] == r.states[k + 1] && r'.moves[k] == r.moves[k];
      }
    }
  }

  /** The first thread takes a step. */
  lemma First(r: Trace, c: Choice, d: Data, o: map<Lock, nat>, a: Thread, b: Thread, d': Data, a': Thread)
    returns (r': Trace)
    requires At(r, d, o, a, b) && Known(a, d) && (ActionOf(a).Take? ==> ActionOf(a).l !in o)
    requires Next(a, d, c) == (d', a')
    ensures At(r', d', OwnerAfter(o, 0, ActionOf(a)), a', b)
  {
    hide Next, ActionOf, Known, IsRun, OwnerAfter;
    r' := Go(r, System(d, o, [a, b]), 0, c);
    assert [a, b][0 := a'] == [a', b];
  }

  lemma Second(r: Trace, c: Choice, d: Data, o: map<Lock, nat>, a: Thread, b: Thread, d': Data, b': Thread)
    returns (r': Trace)
    requires At(r, d, o, a, b) && Known(b, d) && (ActionOf(b).Take? ==> ActionOf(b).l !in o)
    requires Next(b, d, c) == (d', b')
    ensures At(r', d', OwnerAfter(o, 1, ActionOf(b)), a, b')
  {
    hide Next, ActionOf, Known, IsRun, OwnerAfter;
    r' := Go(r, System(d, o, [a, b]), 1, c);
    assert [a, b][1 := b'] == [a, b'];
  }

  function With(op: Op): Choice {
    Choice(op, true, true, true, true, true, 0)
  }

  const FREE: map<Lock, nat> := map[]

  /** A thread opens the output or an input under the hardware lock, alone. */
  lemma ListJobAlone(r: Trace, j: ListJob, e: Data, d: Data) returns (r': Trace)
    requires At(r, e, FREE, Idle, Idle) && InRange(e) && InRange(d) && ListUpdate(e, j, 0) == d
    ensures At(r', d, FREE, Idle, Idle)
  {
    hide At, InRange, ListUpdate;
    var c := With(ListOp(j));
    r' := First(r, c, e, FREE, Idle, Idle, e, Side(LEnter(j)));
    r' := First(r', c, e, FREE, Side(LEnter(j)), Idle, e, Side(LBody(j)));
    r' := First(r', c, e, FREE[Hw := 0], Side(LBody(j)), Idle, d, Side(LLeave));
    r' := First(r', c, d, FREE[Hw := 0], Side(LLeave), Idle, d, Idle);
    assert FREE[Hw := 0] - {Hw} == FREE;
  }

  lemma Begin() returns (r: Trace)
    ensures At(r, EMPTY, FREE, Idle, Idle)
  {
    r := Trace([System(EMPTY, FREE, [Idle, Idle])], []);
  }
}
