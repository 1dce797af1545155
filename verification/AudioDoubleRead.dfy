/** A run in which two threads read from one input: it is opened twice, and the counts no longer fit. */
module AudioDoubleRead {
  import opened Options
  import opened AudioHandles
  import opened AudioProtocol
  import opened AudioSafety
  import opened AudioConservation
  import opened AudioTraces

  const ONE_OUT := EMPTY.(output := Some(0), outs := [NEW_OUT])
  const ONE_EACH := ONE_OUT.(inputs := [0], ins := [NEW_IN])

  /** One output and one input, as they are created. */
  lemma OneEachFits()
    ensures InRange(ONE_EACH) && Balanced(ONE_EACH) && SoundHandles(ONE_EACH)
  {
    assert Pcms(ONE_EACH.outs) == [None];
    assert Mixers(ONE_EACH) == [None, None];
  }

  /** The data after the first opening of the input. */
  ghost function Opened(): Data {
    OneEachFits();
    ReadNext(ROpen(0), ONE_EACH, With(ReadFrom(0))).0
  }

  lemma OpenedShape()
    ensures InRange(Opened())
    ensures Opened().output == Some(0) && |Opened().outs| == 1 && Opened().outs[0].standby
    ensures |Opened().ins| == 1 && Opened().ins[0].pcm
    ensures ReadNext(ROpen(0), ONE_EACH, With(ReadFrom(0))) == (Opened(), Read(RLeaveHw(0, true)))
  {
    OneEachFits();
    hide Balanced, SoundHandles;
  }

  lemma OpenedSound()
    ensures SoundHandles(Opened())
  {
    OneEachFits();
    OpenMixerSound(CLOSED, true);
    hide Balanced, Sound, Replay;
    assert Opened().handles == Handles(CLOSED, OpenMixer(CLOSED, true).0);
    assert ONE_EACH.handles == Handles(CLOSED, CLOSED);
  }

  lemma OpenedFits()
    ensures InRange(Opened()) && |Opened().ins| == 1 && Opened().ins[0].pcm
    ensures Balanced(Opened()) && SoundHandles(Opened())
  {
    hide Opened, ReadNext, Balanced, SoundHandles;
    OneEachFits();
    OpenedShape();
    OpenedSound();
    ReopenedInputBalance(0, ONE_EACH, With(ReadFrom(0)));
  }

  lemma FirstLetsGo(r: Trace) returns (r': Trace)
    requires At(r, ONE_EACH, FREE, Idle, Idle)
    ensures At(r', ONE_EACH, FREE, Read(RTakeOut(0, 0)), Idle)
  {
    hide At;
    var c, d := With(ReadFrom(0)), ONE_EACH;
    r' := First(r, c, d, FREE, Idle, Idle, d, Read(REnter(0)));
    r' := First(r', c, d, FREE, Read(REnter(0)), Idle, d, Read(RTest(0)));
    r' := First(r', c, d, FREE[In(0) := 0], Read(RTest(0)), Idle, d, Read(RTakeHw(0)));
    r' := First(r', c, d, FREE[In(0) := 0], Read(RTakeHw(0)), Idle, d, Read(RScan(0)));
    var o := FREE[In(0) := 0][Hw := 0];
    r' := First(r', c, d, o, Read(RScan(0)), Idle, d, Read(RDropHw(0, 0)));
    r' := First(r', c, d, o, Read(RDropHw(0, 0)), Idle, d, Read(RDropIn(0, 0)));
    r' := First(r', c, d, o - {Hw}, Read(RDropIn(0, 0)), Idle, d, Read(RTakeOut(0, 0)));
    assert o - {Hw} - {In(0)} == FREE;
  }

  lemma SecondLetsGo(r: Trace, a: Thread) returns (r': Trace)
    requires At(r, ONE_EACH, FREE, a, Idle)
    ensures At(r', ONE_EACH, FREE, a, Read(RTakeOut(0, 0)))
  {
    hide At;
    var c, d := With(ReadFrom(0)), ONE_EACH;
    r' := Second(r, c, d, FREE, a, Idle, d, Read(REnter(0)));
    r' := Second(r', c, d, FREE, a, Read(REnter(0)), d, Read(RTest(0)));
    r' := Second(r', c, d, FREE[In(0) := 1], a, Read(RTest(0)), d, Read(RTakeHw(0)));
    r' := Second(r', c, d, FREE[In(0) := 1], a, Read(RTakeHw(0)), d, Read(RScan(0)));
    var o := FREE[In(0) := 1][Hw := 1];
    r' := Second(r', c, d, o, a, Read(RScan(0)), d, Read(RDropHw(0, 0)));
    r' := Second(r', c, d, o, a, Read(RDropHw(0, 0)), d, Read(RDropIn(0, 0)));
    r' := Second(r', c, d, o - {Hw}, a, Read(RDropIn(0, 0)), d, Read(RTakeOut(0, 0)));
    assert o - {Hw} - {In(0)} == FREE;
  }

  lemma SecondRetakes(r: Trace, a: Thread) returns (r': Trace)
    requires At(r, ONE_EACH, FREE, a, Read(RTakeOut(0, 0)))
    ensures At(r', ONE_EACH, FREE[In(0) := 1][Hw := 1], a, Read(ROpen(0)))
  {
    hide At;
    var c, d := With(ReadFrom(0)), ONE_EACH;
    r' := Second(r, c, d, FREE, a, Read(RTakeOut(0, 0)), d, Read(RTakeIn(0, 0)));
    r' := Second(r', c, d, FREE[Out(0) := 1], a, Read(RTakeIn(0, 0)), d, Read(RRetakeHw(0, 0)));
    r' := Second(r', c, d, FREE[Out(0) := 1][In(0) := 1], a, Read(RRetakeHw(0, 0)), d, Read(RCheck(0, 0)));
    var o := FREE[Out(0) := 1][In(0) := 1][Hw := 1];
    r' := Second(r', c, d, o, a, Read(RCheck(0, 0)), d, Read(RReopen(0, 0)));
    r' := Second(r', c, d, o, a, Read(RReopen(0, 0)), d, Read(RFreeOut(0, 0)));
    r' := Second(r', c, d, o, a, Read(RFreeOut(0, 0)), d, Read(ROpen(0)));
    assert o - {Out(0)} == FREE[In(0) := 1][Hw := 1];
  }

  lemma SecondReads(r: Trace, a: Thread) returns (r': Trace)
    requires At(r, ONE_EACH, FREE[In(0) := 1][Hw := 1], a, Read(ROpen(0)))
    ensures At(r', Opened(), FREE, a, Idle)
  {
    OpenedShape();
    hide At, Opened, Balanced, SoundHandles, OpenOut, OpenIn;
    var c, e, o := With(ReadFrom(0)), Opened(), FREE[In(0) := 1][Hw := 1];
    r' := Second(r, c, ONE_EACH, o, a, Read(ROpen(0)), e, Read(RLeaveHw(0, true)));
    r' := Second(r', c, e, o, a, Read(RLeaveHw(0, true)), e, Read(RCapture(0)));
    r' := Second(r', c, e, o - {Hw}, a, Read(RCapture(0)), e, Read(RLeave(0, true)));
    r' := Second(r', c, e, o - {Hw}, a, Read(RLeave(0, true)), e, Idle);
    assert o - {Hw} - {In(0)} == FREE;
  }

  lemma FirstReadsOn(r: Trace) returns (r': Trace)
    requires At(r, Opened(), FREE, Read(RTakeOut(0, 0)), Idle)
    ensures exists o :: At(r', ReadNext(ROpen(0), Opened(), With(ReadFrom(0))).0, o, Read(RLeaveHw(0, true)), Idle)
  {
    OpenedShape();
    hide At, Opened, OpenOut, Balanced, SoundHandles;
    var c, e := With(ReadFrom(0)), Opened();
    r' := First(r, c, e, FREE, Read(RTakeOut(0, 0)), Idle, e, Read(RTakeIn(0, 0)));
    r' := First(r', c, e, FREE[Out(0) := 0], Read(RTakeIn(0, 0)), Idle, e, Read(RRetakeHw(0, 0)));
    r' := First(r', c, e, FREE[Out(0) := 0][In(0) := 0], Read(RRetakeHw(0, 0)), Idle, e, Read(RCheck(0, 0)));
    var o := FREE[Out(0) := 0][In(0) := 0][Hw := 0];
    r' := First(r', c, e, o, Read(RCheck(0, 0)), Idle, e, Read(RReopen(0, 0)));
    r' := First(r', c, e, o, Read(RReopen(0, 0)), Idle, e, Read(RFreeOut(0, 0)));
    r' := First(r', c, e, o, Read(RFreeOut(0, 0)), Idle, e, Read(ROpen(0)));
    var f := ReadNext(ROpen(0), e, c).0;
    r' := First(r', c, e, o - {Out(0)}, Read(ROpen(0)), Idle, f, Read(RLeaveHw(0, true)));
  }

  lemma ListsGrow()
    ensures ListUpdate(EMPTY, OpenOutput, 0) == ONE_OUT && ListUpdate(ONE_OUT, OpenInput, 0) == ONE_EACH
    ensures InRange(EMPTY) && InRange(ONE_OUT) && InRange(ONE_EACH)
  {
  }

  lemma OpenedAgain()
    ensures Known(Read(ROpen(0)), Opened())
    ensures !Balanced(ReadNext(ROpen(0), Opened(), With(ReadFrom(0))).0)
  {
    OpenedFits();
    hide Opened, Balanced, SoundHandles, ReadNext;
    ReopenedInputBalance(0, Opened(), With(ReadFrom(0)));
  }

  lemma Ends(r: Trace)
    requires Known(Read(ROpen(0)), Opened())
    requires exists o :: At(r, ReadNext(ROpen(0), Opened(), With(ReadFrom(0))).0, o, Read(RLeaveHw(0, true)), Idle)
    ensures r.states != [] && r.states[|r.states| - 1].data == ReadNext(ROpen(0), Opened(), With(ReadFrom(0))).0
    ensures Run(r.states, r.moves)
  {
    hide Opened, ReadNext;
  }

  /** The run: one reader stops between its locks, another reads, the first goes on and opens the input
      again. */
  lemma TwoReadersBreakTheBalance() returns (states: seq<System>, moves: seq<Move>)
    ensures Run(states, moves) && !Balanced(states[|states| - 1].data)
  {
    var r := Begin();
    hide At, Balanced, ReadNext, Opened, ListUpdate;
    ListsGrow();
    r := ListJobAlone(r, OpenOutput, EMPTY, ONE_OUT);
    r := ListJobAlone(r, OpenInput, ONE_OUT, ONE_EACH);
    r := FirstLetsGo(r);
    r := SecondLetsGo(r, Read(RTakeOut(0, 0)));
    r := SecondRetakes(r, Read(RTakeOut(0, 0)));
    r := SecondReads(r, Read(RTakeOut(0, 0)));
    r := FirstReadsOn(r);
    OpenedAgain();
    states, moves := r.states, r.moves;
    Ends(r);
  }
}
