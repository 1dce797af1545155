/** A run in which the mixer cannot be opened for a call, and an output is left with a mixer that the end of
    the call has closed. */
module AudioFailedCall {
  import opened Options
  import opened AudioHandles
  import opened AudioProtocol
  import opened AudioTraces

  const L1: seq<DriverOp> := [] + [Opened(0)]
  const L2: seq<DriverOp> := L1 + [Closed(0)]
  const L3: seq<DriverOp> := L2 + [Opened(1)]
  const L4: seq<DriverOp> := L3 + [Closed(1)]

  /** One use of the PCM, by the call. */
  const CALL_PCM := Shared(Some(0), 1, 1, L1)

  /** An input; a call without a mixer; the input read from in the call; an output beside it. */
  const ONE_IN := EMPTY.(inputs := [0], ins := [NEW_IN])
  const IN_CALL := ONE_IN.(handles := Handles(CALL_PCM, CLOSED), inCall := true, mode := InCall)
  const READING := IN_CALL.(handles := Handles(CALL_PCM, Shared(Some(0), 1, 1, L1)),
                            ins := [InStream(false, 0, true, 1, Some(0))])
  const BESIDE := READING.(output := Some(0), outs := [NEW_OUT])

  /** The writer has closed the input; it has opened output and input; it has woken the output. */
  const SHUT := BESIDE.(handles := Handles(CALL_PCM, Shared(None, 0, 1, L2)), ins := [InStream(false, 0, false, 0, None)])
  const BOTH := BESIDE.(handles := Handles(CALL_PCM.(count := 2), Shared(Some(1), 2, 2, L3)),
                        outs := [OutStream(true, 0, Some(0), Some(1))], ins := [InStream(false, 0, true, 1, Some(1))])
  const PLAYING := BOTH.(outs := [OutStream(false, 0, Some(0), Some(1))])

  /** The call has ended: nobody counts as a user of the mixer, and the output still holds it. */
  const ENDED := PLAYING.(handles := Handles(CALL_PCM, Shared(None, 0, 2, L4)), inCall := false, mode := Normal,
                          ins := [InStream(true, 1, false, 0, None)])

  const ENTER := With(SetMode(InCall)).(mixerOk := false)
  const LEAVE := With(SetMode(Normal))

  lemma Enters()
    ensures InRange(ONE_IN) && ApplyMode(ONE_IN, InCall, None, None, ENTER) == IN_CALL
  {
  }

  lemma Reads()
    ensures Known(Read(ROpen(0)), IN_CALL)
    ensures ReadNext(ROpen(0), IN_CALL, With(ReadFrom(0))) == (READING, Read(RLeaveHw(0, true)))
  {
    Only(NEW_IN, InStream(true, 0, true, 1, Some(0)));
    Only(InStream(true, 0, true, 1, Some(0)), InStream(false, 0, true, 1, Some(0)));
  }

  /** Replacing the only one. */
  lemma Only<T>(a: T, b: T)
    ensures [a][0 := b] == [b]
  {
  }

  lemma Shuts()
    ensures Known(Write(WCheck(0, 0, 0)), BESIDE)
    ensures WriteNext(WCheck(0, 0, 0), BESIDE, With(WriteTo(0))) == (SHUT, Write(WOpen(0, Some(0))))
  {
    Only(READING.ins[0], SHUT.ins[0]);
    assert Active(BESIDE) == Some(0);
  }

  lemma Opens()
    ensures Known(Write(WOpen(0, Some(0))), SHUT)
    ensures WriteNext(WOpen(0, Some(0)), SHUT, With(WriteTo(0))) == (BOTH, Write(WFreeIn(0, Some(0))))
  {
    Only(SHUT.ins[0], BOTH.ins[0]);
    Only(NEW_OUT, BOTH.outs[0]);
  }

  lemma Leaves()
    ensures InRange(PLAYING) && ApplyMode(PLAYING, Normal, None, Some(0), LEAVE) == ENDED
  {
  }

  /** setMode finds no stream to silence. */
  lemma LooksAround(r: Trace) returns (r': Trace)
    requires At(r, ONE_IN, FREE, Idle, Idle)
    ensures At(r', ONE_IN, FREE[Hw := 0], Mode(MApply(InCall, None, None)), Idle)
  {
    hide At;
    assert InRange(ONE_IN) && Active(ONE_IN) == None;
    r' := First(r, ENTER, ONE_IN, FREE, Idle, Idle, ONE_IN, Mode(MEnter(InCall)));
    r' := First(r', ENTER, ONE_IN, FREE, Mode(MEnter(InCall)), Idle, ONE_IN, Mode(MOutScan(InCall)));
    r' := First(r', ENTER, ONE_IN, FREE[Hw := 0], Mode(MOutScan(InCall)), Idle, ONE_IN, Mode(MInScan(InCall, None)));
    r' := First(r', ENTER, ONE_IN, FREE[Hw := 0], Mode(MInScan(InCall, None)), Idle,
                ONE_IN, Mode(MApply(InCall, None, None)));
  }

  /** It enters the call; its open of the mixer fails. */
  lemma EntersCall(r: Trace) returns (r': Trace)
    requires At(r, ONE_IN, FREE[Hw := 0], Mode(MApply(InCall, None, None)), Idle)
    ensures At(r', IN_CALL, FREE, Idle, Idle)
  {
    Enters();
    hide At, ApplyMode;
    r' := First(r, ENTER, ONE_IN, FREE[Hw := 0], Mode(MApply(InCall, None, None)), Idle,
                IN_CALL, Mode(MFreeIn(None, None)));
    r' := First(r', ENTER, IN_CALL, FREE[Hw := 0], Mode(MFreeIn(None, None)), Idle, IN_CALL, Mode(MFreeOut(None)));
    r' := First(r', ENTER, IN_CALL, FREE[Hw := 0], Mode(MFreeOut(None)), Idle, IN_CALL, Mode(MLeave));
    r' := First(r', ENTER, IN_CALL, FREE[Hw := 0], Mode(MLeave), Idle, IN_CALL, Idle);
    assert FREE[Hw := 0] - {Hw} == FREE;
  }

  /** Another thread reads from the input. */
  lemma StartsToRead(r: Trace) returns (r': Trace)
    requires At(r, IN_CALL, FREE, Idle, Idle)
    ensures At(r', IN_CALL, FREE[In(0) := 1][Hw := 1], Idle, Read(ROpen(0)))
  {
    hide At;
    var c, o := With(ReadFrom(0)), FREE[In(0) := 1][Hw := 1];
    r' := Second(r, c, IN_CALL, FREE, Idle, Idle, IN_CALL, Read(REnter(0)));
    r' := Second(r', c, IN_CALL, FREE, Idle, Read(REnter(0)), IN_CALL, Read(RTest(0)));
    r' := Second(r', c, IN_CALL, FREE[In(0) := 1], Idle, Read(RTest(0)), IN_CALL, Read(RTakeHw(0)));
    r' := Second(r', c, IN_CALL, FREE[In(0) := 1], Idle, Read(RTakeHw(0)), IN_CALL, Read(RScan(0)));
    r' := Second(r', c, IN_CALL, o, Idle, Read(RScan(0)), IN_CALL, Read(ROpen(0)));
  }

  lemma Captures(r: Trace) returns (r': Trace)
    requires At(r, IN_CALL, FREE[In(0) := 1][Hw := 1], Idle, Read(ROpen(0)))
    ensures At(r', READING, FREE, Idle, Idle)
  {
    Reads();
    hide At, InOpen;
    var c, o := With(ReadFrom(0)), FREE[In(0) := 1][Hw := 1];
    r' := Second(r, c, IN_CALL, o, Idle, Read(ROpen(0)), READING, Read(RLeaveHw(0, true)));
    r' := Second(r', c, READING, o, Idle, Read(RLeaveHw(0, true)), READING, Read(RCapture(0)));
    r' := Second(r', c, READING, o - {Hw}, Idle, Read(RCapture(0)), READING, Read(RLeave(0, true)));
    r' := Second(r', c, READING, o - {Hw}, Idle, Read(RLeave(0, true)), READING, Idle);
    assert o - {Hw} - {In(0)} == FREE;
  }

  /** setMode sees the output in standby and the input awake, and lets go of the lock to take the input's. */
  lemma LooksForStreams(r: Trace) returns (r': Trace)
    requires At(r, BESIDE, FREE, Idle, Idle)
    ensures At(r', BESIDE, FREE, Mode(MInTake(Normal, None, 0, 0)), Idle)
  {
    hide At;
    assert InRange(BESIDE) && Active(BESIDE) == Some(0);
    r' := First(r, LEAVE, BESIDE, FREE, Idle, Idle, BESIDE, Mode(MEnter(Normal)));
    r' := First(r', LEAVE, BESIDE, FREE, Mode(MEnter(Normal)), Idle, BESIDE, Mode(MOutScan(Normal)));
    r' := First(r', LEAVE, BESIDE, FREE[Hw := 0], Mode(MOutScan(Normal)), Idle, BESIDE, Mode(MInScan(Normal, None)));
    r' := First(r', LEAVE, BESIDE, FREE[Hw := 0], Mode(MInScan(Normal, None)), Idle,
                BESIDE, Mode(MInDrop(Normal, None, 0, 0)));
    r' := First(r', LEAVE, BESIDE, FREE[Hw := 0], Mode(MInDrop(Normal, None, 0, 0)), Idle,
                BESIDE, Mode(MInTake(Normal, None, 0, 0)));
    assert FREE[Hw := 0] - {Hw} == FREE;
  }

  /** Meanwhile the other thread writes: it too takes the input's lock. */
  lemma StartsToWrite(r: Trace, a: Thread) returns (r': Trace)
    requires At(r, BESIDE, FREE, a, Idle)
    ensures At(r', BESIDE, FREE[Out(0) := 1][In(0) := 1][Hw := 1], a, Write(WCheck(0, 0, 0)))
  {
    hide At;
    assert InRange(BESIDE) && Active(BESIDE) == Some(0);
    var c, o := With(WriteTo(0)), FREE[Out(0) := 1][Hw := 1];
    r' := Second(r, c, BESIDE, FREE, a, Idle, BESIDE, Write(WEnter(0)));
    r' := Second(r', c, BESIDE, FREE, a, Write(WEnter(0)), BESIDE, Write(WTest(0)));
    r' := Second(r', c, BESIDE, FREE[Out(0) := 1], a, Write(WTest(0)), BESIDE, Write(WTakeHw(0)));
    r' := Second(r', c, BESIDE, FREE[Out(0) := 1], a, Write(WTakeHw(0)), BESIDE, Write(WScan(0)));
    r' := Second(r', c, BESIDE, o, a, Write(WScan(0)), BESIDE, Write(WDrop(0, 0, 0)));
    r' := Second(r', c, BESIDE, o, a, Write(WDrop(0, 0, 0)), BESIDE, Write(WTake(0, 0, 0)));
    r' := Second(r', c, BESIDE, o - {Hw}, a, Write(WTake(0, 0, 0)), BESIDE, Write(WRetake(0, 0, 0)));
    r' := Second(r', c, BESIDE, (o - {Hw})[In(0) := 1], a, Write(WRetake(0, 0, 0)), BESIDE, Write(WCheck(0, 0, 0)));
    assert (o - {Hw})[In(0) := 1][Hw := 1] == FREE[Out(0) := 1][In(0) := 1][Hw := 1];
  }

  /** It opens the output and the input again. */
  lemma OpensBoth(r: Trace, a: Thread) returns (r': Trace)
    requires At(r, BESIDE, FREE[Out(0) := 1][In(0) := 1][Hw := 1], a, Write(WCheck(0, 0, 0)))
    ensures At(r', BOTH, FREE[Out(0) := 1][In(0) := 1][Hw := 1], a, Write(WFreeIn(0, Some(0))))
  {
    Shuts();
    Opens();
    hide At, CloseIn, OutOpen, InReopen, WithIn;
    var c, o := With(WriteTo(0)), FREE[Out(0) := 1][In(0) := 1][Hw := 1];
    r' := Second(r, c, BESIDE, o, a, Write(WCheck(0, 0, 0)), SHUT, Write(WOpen(0, Some(0))));
    r' := Second(r', c, SHUT, o, a, Write(WOpen(0, Some(0))), BOTH, Write(WFreeIn(0, Some(0))));
  }

  /** It wakes the output and plays. */
  lemma Plays(r: Trace, a: Thread) returns (r': Trace)
    requires At(r, BOTH, FREE[Out(0) := 1][In(0) := 1][Hw := 1], a, Write(WFreeIn(0, Some(0))))
    ensures At(r', PLAYING, FREE[Out(0) := 1], a, Write(WPlay(0)))
  {
    Only(BOTH.outs[0], PLAYING.outs[0]);
    hide At;
    var c, o := With(WriteTo(0)), FREE[Out(0) := 1][In(0) := 1][Hw := 1];
    r' := Second(r, c, BOTH, o, a, Write(WFreeIn(0, Some(0))), BOTH, Write(WWake(0)));
    r' := Second(r', c, BOTH, o - {In(0)}, a, Write(WWake(0)), PLAYING, Write(WLeaveHw(0, true)));
    r' := Second(r', c, PLAYING, o - {In(0)}, a, Write(WLeaveHw(0, true)), PLAYING, Write(WPlay(0)));
    assert o - {In(0)} - {Hw} == FREE[Out(0) := 1];
  }

  /** setMode goes on with the input alone, and ends the call. */
  lemma EndsCall(r: Trace, b: Thread) returns (r': Trace)
    requires At(r, PLAYING, FREE[Out(0) := 1], Mode(MInTake(Normal, None, 0, 0)), b)
    ensures At(r', ENDED, FREE[Out(0) := 1][In(0) := 0][Hw := 0], Mode(MFreeIn(None, Some(0))), b)
  {
    Leaves();
    hide At, ApplyMode;
    assert Active(PLAYING) == Some(0);
    var o := FREE[Out(0) := 1];
    r' := First(r, LEAVE, PLAYING, o, Mode(MInTake(Normal, None, 0, 0)), b,
                PLAYING, Mode(MInRetake(Normal, None, 0, 0)));
    r' := First(r', LEAVE, PLAYING, o[In(0) := 0], Mode(MInRetake(Normal, None, 0, 0)), b,
                PLAYING, Mode(MInCheck(Normal, None, 0, 0)));
    r' := First(r', LEAVE, PLAYING, o[In(0) := 0][Hw := 0], Mode(MInCheck(Normal, None, 0, 0)), b,
                PLAYING, Mode(MApply(Normal, None, Some(0))));
    r' := First(r', LEAVE, PLAYING, o[In(0) := 0][Hw := 0], Mode(MApply(Normal, None, Some(0))), b,
                ENDED, Mode(MFreeIn(None, Some(0))));
  }

  lemma ListsGrow()
    ensures InRange(EMPTY) && InRange(ONE_IN) && InRange(READING) && InRange(BESIDE)
    ensures ListUpdate(EMPTY, OpenInput, 0) == ONE_IN && ListUpdate(READING, OpenOutput, 0) == BESIDE
  {
    var d, e := ListUpdate(EMPTY, OpenInput, 0), ListUpdate(READING, OpenOutput, 0);
    assert d.inputs == [0] && d.ins == [NEW_IN];
    assert e.outs == [NEW_OUT];
  }

  lemma Finished(r: Trace, o: map<Lock, nat>, a: Thread, b: Thread)
    requires At(r, ENDED, o, a, b)
    ensures r.states != [] && Run(r.states, r.moves) && r.states[|r.states| - 1].data == ENDED
  {
  }

  /** After a call whose mixer could not be opened, the output can hold a mixer while none is open. */
  lemma FailedCallOpenLeavesDeadHandle() returns (states: seq<System>, moves: seq<Move>)
    ensures Run(states, moves)
    ensures var d := states[|states| - 1].data;
      !d.inCall && |d.outs| == 1 && d.outs[0].mixer.Some? && d.handles.mixer.handle.None? && d.handles.mixer.count == 0
  {
    hide At, ListUpdate, InRange, Run;
    var r := Begin();
    ListsGrow();
    r := ListJobAlone(r, OpenInput, EMPTY, ONE_IN);
    r := LooksAround(r);
    r := EntersCall(r);
    r := StartsToRead(r);
    r := Captures(r);
    r := ListJobAlone(r, OpenOutput, READING, BESIDE);
    r := LooksForStreams(r);
    r := StartsToWrite(r, Mode(MInTake(Normal, None, 0, 0)));
    r := OpensBoth(r, Mode(MInTake(Normal, None, 0, 0)));
    r := Plays(r, Mode(MInTake(Normal, None, 0, 0)));
    r := EndsCall(r, Write(WPlay(0)));
    Finished(r, FREE[Out(0) := 1][In(0) := 0][Hw := 0], Mode(MFreeIn(None, Some(0))), Write(WPlay(0)));
    states, moves := r.states, r.moves;
  }
}
