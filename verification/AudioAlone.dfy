/** A whole operation of the audio HAL when no other thread comes between: the protocol of single steps, run
    from its first step to its last, does what the method of the source does, and never retries. */
module AudioAlone {
  import opened Options
  import opened AudioHandles
  import opened AudioProtocol
  import opened AudioSafety
  import opened AudioConservation
  import opened AudioOutcomes

  /** The thread takes the steps `cs` and only these are taken; it becomes idle with the last one. */
  ghost predicate Solo(th: Thread, d: Data, cs: seq<Choice>, d': Data)
    decreases |cs|
  {
    if cs == [] then th == Idle && d' == d
    else th != Idle && Known(th, d) && var (e, u) := Next(th, d, cs[0]); Solo(u, e, cs[1..], d')
  }

  lemma Forth(th: Thread, d: Data, cs: seq<Choice>, d': Data) returns (c: Choice, rest: seq<Choice>)
    requires Solo(th, d, cs, d') && th != Idle
    ensures |cs| == 1 + |rest| && c == cs[0] && forall k | 0 <= k < |rest| :: rest[k] == cs[k + 1]
    ensures Known(th, d) && var (e, u) := Next(th, d, c); Solo(u, e, rest, d')
  {
    c, rest := cs[0], cs[1..];
  }

  lemma Done(d: Data, cs: seq<Choice>, d': Data)
    requires Solo(Idle, d, cs, d')
    ensures cs == [] && d' == d
  {
  }

  /** From state j to state l only thread t moves, and it becomes idle with the last step. */
  ghost predicate Undisturbed(states: seq<System>, moves: seq<Move>, j: nat, l: nat, t: nat) {
    && j <= l <= |moves| && l < |states|
    && (forall k | j <= k <= l :: t < |states[k].threads|)
    && (forall k | j <= k < l :: moves[k].t == t && states[k].threads[t] != Idle)
    && states[l].threads[t] == Idle
  }

  ghost function Choices(moves: seq<Move>, j: nat, l: nat): seq<Choice>
    requires j <= l <= |moves|
    decreases l - j
  {
    if j == l then [] else [moves[j].c] + Choices(moves, j + 1, l)
  }

  /** Steps of a run that all belong to one thread are such a sequence. */
  lemma {:induction false} SoloInRun(states: seq<System>, moves: seq<Move>, j: nat, l: nat, t: nat)
    requires Run(states, moves) && Undisturbed(states, moves, j, l, t)
    ensures Solo(states[j].threads[t], states[j].data, Choices(moves, j, l), states[l].data)
    decreases l - j
  {
    if j < l {
      StepOfRun(states, moves, j);
      hide Run, Enabled, Step, Solo;
      SoloInRun(states, moves, j + 1, l, t);
      SoloBegins(states[j], t, moves[j].c, Choices(moves, j + 1, l), states[l].data);
    }
  }

  lemma SoloBegins(s: System, t: nat, c: Choice, rest: seq<Choice>, d': Data)
    requires Enabled(s, t) && s.threads[t] != Idle
    requires Solo(Step(s, t, c).threads[t], Step(s, t, c).data, rest, d')
    ensures Solo(s.threads[t], s.data, [c] + rest, d')
  {
    hide Next, ActionOf, OwnerAfter, Known;
    var cs := [c] + rest;
    assert cs[0] == c && cs[1..] == rest;
  }

  /** The input it looks for is the first one of the list that is active. */
  lemma {:induction false} ActiveIsFirst(ins: seq<InStream>, inputs: seq<nat>) returns (k: nat)
    requires forall j | 0 <= j < |inputs| :: inputs[j] < |ins|
    requires ActiveInput(ins, inputs).Some?
    ensures k < |inputs| && ActiveInput(ins, inputs) == Some(inputs[k]) && !ins[inputs[k]].standby
    ensures forall j | 0 <= j < k :: ins[inputs[j]].standby
  {
    if !ins[inputs[0]].standby {
      k := 0;
    } else {
      k := ActiveIsFirst(ins, inputs[1..]);
      k := k + 1;
    }
  }

  // ------------------------------------------------------------------------------- setMode

  lemma ModeLeaves(out: Option<nat>, inp: Option<nat>, d: Data, cs: seq<Choice>, d': Data)
    requires Solo(Mode(MFreeIn(out, inp)), d, cs, d')
    ensures d' == d && |cs| == 3
  {
    hide Solo;
    var c1, r1 := Forth(Mode(MFreeIn(out, inp)), d, cs, d');
    var c2, r2 := Forth(Mode(MFreeOut(out)), d, r1, d');
    var c3, r3 := Forth(Mode(MLeave), d, r2, d');
    Done(d, r3, d');
  }

  lemma ModeWorks(m: AudioMode, out: Option<nat>, a: Option<nat>, d: Data, cs: seq<Choice>, d': Data)
    requires Solo(Mode(MApply(m, out, a)), d, cs, d')
    ensures |cs| == 4 && ModeOutcome(d, m, out, a, cs[0].flag, d')
  {
    hide Solo, ApplyMode, ModeOutcome;
    var c, rest := Forth(Mode(MApply(m, out, a)), d, cs, d');
    ModeLeaves(out, a, ApplyMode(d, m, out, a, c), rest, d');
    ApplyModeOutcome(d, m, out, a, c);
  }

  lemma ModeFromInput(m: AudioMode, out: Option<nat>, d: Data, cs: seq<Choice>, d': Data)
    requires Solo(Mode(MInScan(m, out)), d, cs, d') && InRange(d)
    ensures 5 <= |cs| <= 9 && ModeOutcome(d, m, out, Active(d), cs[|cs| - 4].flag, d')
  {
    hide Solo, Active, ModeOutcome;
    var a := Active(d);
    var c1, r := Forth(Mode(MInScan(m, out)), d, cs, d');
    if a.Some? {
      var i, cnt := a.value, d.ins[a.value].standbyCnt;
      var c2, r2 := Forth(Mode(MInDrop(m, out, i, cnt)), d, r, d');
      var c3, r3 := Forth(Mode(MInTake(m, out, i, cnt)), d, r2, d');
      var c4, r4 := Forth(Mode(MInRetake(m, out, i, cnt)), d, r3, d');
      var c5, r5 := Forth(Mode(MInCheck(m, out, i, cnt)), d, r4, d');
      r := r5;
    }
    ModeWorks(m, out, a, d, r, d');
  }

  /** setMode silences the active output and the first active input exactly when it enters or ends a call, and
      then leaves the mode as asked for. */
  lemma SetModeAlone(m: AudioMode, d: Data, cs: seq<Choice>, d': Data)
    requires Solo(Mode(MEnter(m)), d, cs, d') && InRange(d)
    ensures 7 <= |cs| <= 15 && ModeOutcome(d, m, ActiveOut(d), Active(d), cs[|cs| - 4].flag, d')
  {
    hide Solo, Active, ModeOutcome;
    var c1, r1 := Forth(Mode(MEnter(m)), d, cs, d');
    var c2, r := Forth(Mode(MOutScan(m)), d, r1, d');
    if ActiveOut(d).Some? {
      var o, cnt := d.output.value, d.outs[d.output.value].standbyCnt;
      var c3, r3 := Forth(Mode(MOutDrop(m, o, cnt)), d, r, d');
      var c4, r4 := Forth(Mode(MOutTake(m, o, cnt)), d, r3, d');
      var c5, r5 := Forth(Mode(MOutRetake(m, o, cnt)), d, r4, d');
      var c6, r6 := Forth(Mode(MOutCheck(m, o, cnt)), d, r5, d');
      r := r6;
    }
    ModeFromInput(m, ActiveOut(d), d, r, d');
  }

  // ------------------------------------------------------------------ standby and setParameters

  ghost predicate OutToStandby(d: Data, o: nat, d': Data)
    requires o < |d.outs|
  {
    OnlyThese(d, Some(o), None, d') && PutToStandbyOut(d.outs[o], d'.outs[o])
  }

  ghost predicate InToStandby(d: Data, i: nat, d': Data)
    requires i < |d.ins|
  {
    && OnlyThese(d, None, Some(i), d') && PutToStandbyIn(d.ins[i], d'.ins[i])
    && d'.handles.pcm == d.handles.pcm
  }

  /** standby() on an output sends it to standby. So does setParameters() if a route is given, it is a new one,
      and there is no call; otherwise that does nothing. */
  lemma OutOpAlone(o: nat, j: OutJob, d: Data, cs: seq<Choice>, d': Data)
    requires Solo(Side(OEnter(o, j)), d, cs, d') && o < |d.outs|
    ensures |cs| > 1 && |cs| == (if j == OStandby || cs[1].flag then 6 else 3)
    ensures if j == OStandby || (cs[1].flag && cs[3].flag && d.mode != InCall) then OutToStandby(d, o, d') else d' == d
  {
    hide Solo, StandbyOut;
    var c1, r1 := Forth(Side(OEnter(o, j)), d, cs, d');
    var c2, r2 := Forth(Side(OTest(o, j)), d, r1, d');
    if j == OStandby || c2.flag {
      var c3, r3 := Forth(Side(OTakeHw(o, j)), d, r2, d');
      var c4, r4 := Forth(Side(OBody(o, j)), d, r3, d');
      var e := SideNext(OBody(o, j), d, c4).0;
      StandbyOutGives(d.handles, d.outs[o]);
      var c5, r5 := Forth(Side(OLeaveHw(o)), e, r4, d');
      var c6, r6 := Forth(Side(OLeave(o)), e, r5, d');
      Done(e, r6, d');
    } else {
      var c3, r3 := Forth(Side(OLeave(o)), d, r2, d');
      Done(d, r3, d');
    }
  }

  /** The same for an input. */
  lemma InOpAlone(i: nat, j: InJob, d: Data, cs: seq<Choice>, d': Data)
    requires Solo(Side(IEnter(i, j)), d, cs, d') && i < |d.ins| && j != ISource
    ensures |cs| > 1 && |cs| == (if j == IStandby || cs[1].flag then 6 else 3)
    ensures if j == IStandby || (cs[1].flag && cs[3].flag && d.mode != InCall) then InToStandby(d, i, d') else d' == d
  {
    hide Solo, StandbyIn;
    var c1, r1 := Forth(Side(IEnter(i, j)), d, cs, d');
    InTestAlone(i, j, d, r1, d');
  }

  lemma InTestAlone(i: nat, j: InJob, d: Data, cs: seq<Choice>, d': Data)
    requires Solo(Side(ITest(i, j)), d, cs, d') && i < |d.ins| && j != ISource
    ensures |cs| > 0 && |cs| == (if j == IStandby || cs[0].flag then 5 else 2)
    ensures if j == IStandby || (cs[0].flag && cs[2].flag && d.mode != InCall) then InToStandby(d, i, d') else d' == d
  {
    hide Solo, InToStandby, Known;
    var c2, r2 := Forth(Side(ITest(i, j)), d, cs, d');
    if j == IStandby || c2.flag {
      InWorksAlone(i, j, d, r2, d');
    } else {
      var c3, r3 := Forth(Side(ILeave(i)), d, r2, d');
      Done(d, r3, d');
    }
  }

  lemma InWorksAlone(i: nat, j: InJob, d: Data, cs: seq<Choice>, d': Data)
    requires Solo(Side(ITakeHw(i, j)), d, cs, d') && i < |d.ins| && j != ISource
    ensures |cs| == 4
    ensures if j == IStandby || (cs[1].flag && d.mode != InCall) then InToStandby(d, i, d') else d' == d
  {
    hide Solo, StandbyIn;
    var c3, r3 := Forth(Side(ITakeHw(i, j)), d, cs, d');
    var c4, r4 := Forth(Side(IBody(i, j)), d, r3, d');
    var e := SideNext(IBody(i, j), d, c4).0;
    StandbyInGives(d.handles, d.ins[i]);
    var c5, r5 := Forth(Side(ILeaveHw(i, j)), e, r4, d');
    var c6, r6 := Forth(Side(ILeave(i)), e, r5, d');
    Done(e, r6, d');
  }

  lemma BorrowsAlone(i: nat, d: Data, cs: seq<Choice>, d': Data) returns (e: Data, rest: seq<Choice>)
    requires Solo(Side(ITakeHw(i, ISource)), d, cs, d') && i < |d.ins| && Sound(d.handles.mixer)
    ensures OnlyThese(d, None, None, e) && e.handles.pcm == d.handles.pcm
    ensures e.handles.mixer.count == d.handles.mixer.count
    ensures |cs| == 3 + |rest| && forall k | 0 <= k < |rest| :: rest[k] == cs[k + 3]
    ensures Solo(Side(ITest(i, IRoute)), e, rest, d')
  {
    hide Solo, OpenMixer, CloseShared, Sound;
    var c3, r3 := Forth(Side(ITakeHw(i, ISource)), d, cs, d');
    var c4, r4 := Forth(Side(IBody(i, ISource)), d, r3, d');
    e := SideNext(IBody(i, ISource), d, c4).0;
    BorrowedCount(d.handles.mixer, c4.mixerOk);
    var c5;
    c5, rest := Forth(Side(ILeaveHw(i, ISource)), e, r4, d');
  }

  /** A new route sends the input to standby; nothing else changes but what the mixer has been borrowed for. */
  ghost predicate RouteOutcome(d: Data, i: nat, rerouted: bool, d': Data)
    requires i < |d.ins|
  {
    && if rerouted then InToStandby(d, i, d')
       else && OnlyThese(d, None, None, d') && d'.handles.pcm == d.handles.pcm
            && d'.handles.mixer.count == d.handles.mixer.count
  }

  /** setParameters() with a source borrows the mixer; with or without one it then looks for a route. */
  lemma InSourceAlone(i: nat, d: Data, cs: seq<Choice>, d': Data)
    requires Solo(Side(IEnter(i, ISource)), d, cs, d') && i < |d.ins| && Sound(d.handles.mixer)
    ensures |cs| > 1
    ensures var n := if cs[1].flag then 5 else 2;
            && |cs| > n && |cs| == n + (if cs[n].flag then 5 else 2)
            && RouteOutcome(d, i, cs[n].flag && cs[n + 2].flag && d.mode != InCall, d')
  {
    hide Solo, Sound, Known, RouteOutcome, OnlyThese;
    var c1, r1 := Forth(Side(IEnter(i, ISource)), d, cs, d');
    var c2, r2 := Forth(Side(ITest(i, ISource)), d, r1, d');
    if c2.flag {
      var e, r3 := BorrowsAlone(i, d, r2, d');
      assert forall k | 0 <= k < |r3| :: r3[k] == cs[k + 5];
      RouteAlone(i, d, e, r3, d');
    } else {
      assert OnlyThese(d, None, None, d) by { NothingChanges(d); }
      RouteAlone(i, d, d, r2, d');
    }
  }

  lemma NothingChanges(d: Data)
    ensures OnlyThese(d, None, None, d)
  {
  }

  lemma RouteAlone(i: nat, d: Data, e: Data, cs: seq<Choice>, d': Data)
    requires Solo(Side(ITest(i, IRoute)), e, cs, d') && i < |d.ins|
    requires OnlyThese(d, None, None, e) && e.handles.pcm == d.handles.pcm
    requires e.handles.mixer.count == d.handles.mixer.count
    ensures |cs| > 0 && |cs| == (if cs[0].flag then 5 else 2)
    ensures RouteOutcome(d, i, cs[0].flag && cs[2].flag && d.mode != InCall, d')
  {
    hide Solo;
    assert e.ins[i] == d.ins[i];
    InTestAlone(i, IRoute, e, cs, d');
  }

  /** setMicMute() puts the first active input to standby if the flag is new and there is no call. */
  lemma MicMuteAlone(d: Data, cs: seq<Choice>, d': Data)
    requires Solo(Side(UEnter), d, cs, d') && InRange(d)
    ensures |cs| > 1
    ensures if cs[1].flag && d.mode != InCall && Active(d).Some? then InToStandby(d, Active(d).value, d') else d' == d
  {
    hide Solo, Active;
    var c1, r1 := Forth(Side(UEnter), d, cs, d');
    var c2, r2 := Forth(Side(UPick), d, r1, d');
    var a := if c2.flag && d.mode != InCall then Active(d) else None;
    var c3, r3 := Forth(Side(ULeave(a)), d, r2, d');
    if a.Some? {
      InOpAlone(a.value, IStandby, d, r3, d');
    } else {
      Done(d, r3, d');
    }
  }

  lemma ListJobAlone(j: ListJob, d: Data, cs: seq<Choice>, d': Data)
    requires Solo(Side(LEnter(j)), d, cs, d')
    ensures |cs| == 3 && ListOutcome(d, j, d')
  {
    hide Solo, ListUpdate, ListOutcome;
    var c1, r1 := Forth(Side(LEnter(j)), d, cs, d');
    var c2, r2 := Forth(Side(LBody(j)), d, r1, d');
    ListStep(d, j, c2.place);
    var c3, r3 := Forth(Side(LLeave), ListUpdate(d, j, c2.place), r2, d');
    Done(ListUpdate(d, j, c2.place), r3, d');
  }

  // ------------------------------------------------------------------------------------ write

  /** What becomes of a stream that is to play or capture, once its device is open or not: awake with the device,
      or in standby, which is counted, if there is none or the transfer fails. */
  ghost predicate PlaysOrRests(s: OutStream, works: bool, h': Handles, s': OutStream) {
    if works then !s'.standby && s'.standbyCnt == s.standbyCnt && s'.pcm.Some? && s'.pcm == h'.pcm.handle
    else PutToStandbyOut(s, s')
  }

  ghost predicate InputReopened(s: InStream, works: bool, s': InStream) {
    if works then s'.pcm && s'.standby == s.standby && s'.standbyCnt == s.standbyCnt else PutToStandbyIn(s, s')
  }

  /** write() on an output in standby: `ready` and `inReady` are the driver's answers for the output and for the
      active input, which is closed and reopened around it; `played` says how the transfer ends. */
  ghost predicate WriteOutcome(d: Data, o: nat, a: Option<nat>, ready: bool, inReady: bool, played: bool, d': Data)
    requires o < |d.outs| && (a.Some? ==> a.value < |d.ins|)
  {
    && OnlyThese(d, Some(o), a, d')
    && PlaysOrRests(d.outs[o], Available(d.handles.pcm, ready) && played, d'.handles, d'.outs[o])
    && (a.Some? ==> InputReopened(d.ins[a.value], inReady, d'.ins[a.value]))
  }

  lemma WriteLeavesAlone(o: nat, ok: bool, d: Data, cs: seq<Choice>, d': Data)
    requires Solo(Write(WLeave(o, ok)), d, cs, d') && o < |d.outs|
    ensures |cs| == (if ok then 1 else 7) && if ok then d' == d else OutToStandby(d, o, d')
  {
    hide Solo, OutToStandby;
    var c, rest := Forth(Write(WLeave(o, ok)), d, cs, d');
    if ok {
      Done(d, rest, d');
    } else {
      OutOpAlone(o, OStandby, d, rest, d');
    }
  }

  lemma WritePlaysAlone(o: nat, d: Data, cs: seq<Choice>, d': Data)
    requires Solo(Write(WPlay(o)), d, cs, d') && o < |d.outs|
    ensures |cs| > 1 && |cs| == (if cs[0].flag then 2 else 8)
    ensures if cs[0].flag then d' == d else OutToStandby(d, o, d')
  {
    hide Solo, OutToStandby;
    var c, rest := Forth(Write(WPlay(o)), d, cs, d');
    WriteLeavesAlone(o, c.flag, d, rest, d');
  }

  lemma WriteWakesAlone(o: nat, d: Data, cs: seq<Choice>, d': Data)
    requires Solo(Write(WWake(o)), d, cs, d') && o < |d.outs| && d.outs[o].standby
    requires d.outs[o].pcm.Some? ==> d.outs[o].pcm == d.handles.pcm.handle
    ensures |cs| > 2 && OnlyThese(d, Some(o), None, d')
    ensures PlaysOrRests(d.outs[o], d.outs[o].pcm.Some? && cs[2].flag, d'.handles, d'.outs[o])
  {
    hide Solo;
    var c, rest := Forth(Write(WWake(o)), d, cs, d');
    if d.outs[o].pcm.Some? {
      var e := d.(outs := d.outs[o := d.outs[o].(standby := false)]);
      var c2, rest2 := Forth(Write(WLeaveHw(o, true)), e, rest, d');
      WritePlaysAlone(o, e, rest2, d');
    } else {
      var c2, rest2 := Forth(Write(WLeaveHw(o, false)), d, rest, d');
      WriteLeavesAlone(o, false, d, rest2, d');
    }
  }

  lemma WriteOpensAlone(o: nat, a: Option<nat>, d: Data, cs: seq<Choice>, d': Data)
    requires Solo(Write(WOpen(o, a)), d, cs, d') && Agreed(d) && o < |d.outs| && d.outs[o].standby
    requires a.Some? ==> a.value < |d.ins|
    ensures |cs| > 4 && WriteOutcome(d, o, a, cs[0].ready, cs[0].inReady, cs[4].flag, d')
  {
    hide Solo, WriteNext, Agreed;
    var c, r := Forth(Write(WOpen(o, a)), d, cs, d');
    WriteOpenStep(o, a, d, c);
    var e := WriteNext(WOpen(o, a), d, c).0;
    WriteGoesOn(o, a, d, c);
    var c2, r2 := Forth(Write(WFreeIn(o, a)), e, r, d');
    FreeInGoesOn(o, a, e, c2);
    WriteWakesAlone(o, e, r2, d');
  }

  lemma WriteGoesOn(o: nat, a: Option<nat>, d: Data, c: Choice)
    requires Known(Write(WOpen(o, a)), d)
    ensures WriteNext(WOpen(o, a), d, c).1 == Write(WFreeIn(o, a))
  {
    hide OutOpen, InReopen;
  }

  lemma FreeInGoesOn(o: nat, a: Option<nat>, d: Data, c: Choice)
    requires Known(Write(WFreeIn(o, a)), d)
    ensures WriteNext(WFreeIn(o, a), d, c) == (d, Write(WWake(o)))
  {
  }

  lemma WriteShutsAlone(o: nat, i: nat, d: Data, cs: seq<Choice>, d': Data) returns (e: Data, rest: seq<Choice>)
    requires Agreed(d) && o < |d.outs| && i < |d.ins|
    requires Solo(Write(WDrop(o, i, d.ins[i].standbyCnt)), d, cs, d')
    requires Active(d) == Some(i)
    ensures Solo(Write(WOpen(o, Some(i))), e, rest, d') && ShutOutcome(d, i, e) && Agreed(e)
    ensures |cs| == 4 + |rest| && forall k | 0 <= k < |rest| :: rest[k] == cs[k + 4]
  {
    hide Solo, Active, CloseIn, ShutOutcome, Sound;
    var cnt := d.ins[i].standbyCnt;
    var c1, r1 := Forth(Write(WDrop(o, i, cnt)), d, cs, d');
    var c2, r2 := Forth(Write(WTake(o, i, cnt)), d, r1, d');
    var c3, r3 := Forth(Write(WRetake(o, i, cnt)), d, r2, d');
    var c4;
    c4, rest := Forth(Write(WCheck(o, i, cnt)), d, r3, d');
    e := WithIn(d, i, CloseIn(d.handles, d.ins[i]));
    CloseInGives(d, i);
    InCloseEffect(d, i);
  }

  lemma StillAsleep(d: Data, i: nat, e: Data)
    requires i < |d.ins| && ShutOutcome(d, i, e)
    ensures e.outs == d.outs && |e.ins| == |d.ins|
  {
  }

  lemma ShutThenOpened(d: Data, o: nat, i: nat, e: Data, ready: bool, inReady: bool, played: bool, d': Data)
    requires o < |d.outs| && i < |d.ins| && ShutOutcome(d, i, e) && |e.outs| == |d.outs| && |e.ins| == |d.ins|
    requires WriteOutcome(e, o, Some(i), ready, inReady, played, d')
    ensures WriteOutcome(d, o, Some(i), ready, inReady, played, d')
  {
  }

  lemma WriteBesideAlone(o: nat, i: nat, d: Data, cs: seq<Choice>, d': Data)
    requires Agreed(d) && o < |d.outs| && i < |d.ins| && d.outs[o].standby && Active(d) == Some(i)
    requires Solo(Write(WDrop(o, i, d.ins[i].standbyCnt)), d, cs, d')
    ensures |cs| > 8 && WriteOutcome(d, o, Some(i), cs[4].ready, cs[4].inReady, cs[8].flag, d')
  {
    hide Solo, Active, Agreed, Next, ActionOf, WriteOutcome, ShutOutcome;
    var e, rest := WriteShutsAlone(o, i, d, cs, d');
    StillAsleep(d, i, e);
    WriteOpensAlone(o, Some(i), e, rest, d');
    ShutThenOpened(d, o, i, e, rest[0].ready, rest[0].inReady, rest[4].flag, d');
  }

  lemma WriteFindsAlone(o: nat, d: Data, cs: seq<Choice>, d': Data)
    requires Solo(Write(WScan(o)), d, cs, d') && Agreed(d) && o < |d.outs| && d.outs[o].standby
    ensures var n := if Active(d).Some? then 5 else 1;
            |cs| > n + 4 && WriteOutcome(d, o, Active(d), cs[n].ready, cs[n].inReady, cs[n + 4].flag, d')
  {
    var a := Active(d);
    hide Solo, Active, Agreed, WriteOutcome;
    var c, r := Forth(Write(WScan(o)), d, cs, d');
    if a.Some? {
      WriteBesideAlone(o, a.value, d, r, d');
    } else {
      WriteOpensAlone(o, None, d, r, d');
    }
  }

  ghost predicate Written(d: Data, o: nat, cs: seq<Choice>, d': Data)
    requires InRange(d) && o < |d.outs|
  {
    var n := if !d.outs[o].standby then 2 else if Active(d).Some? then 12 else 8;
    && |cs| > n
    && if d.outs[o].standby then
         WriteOutcome(d, o, Active(d), cs[n - 4].ready, cs[n - 4].inReady, cs[n].flag, d')
       else if cs[n].flag then d' == d
       else OutToStandby(d, o, d')
  }

  /** write() plays on an active output; one in standby it opens and wakes, unless its PCM cannot be had. When that
      or the transfer fails the output is left in standby. The active input keeps its state of wakefulness if
      its device can be opened again, and is put to standby if not; nothing else changes. */
  lemma WriteAlone(o: nat, d: Data, cs: seq<Choice>, d': Data)
    requires Solo(Write(WEnter(o)), d, cs, d') && Agreed(d) && o < |d.outs|
    ensures |cs| > 1 && Written(d, o, cs, d')
  {
    hide Solo, Active, Agreed, WriteOutcome, OutToStandby;
    var c1, r1 := Forth(Write(WEnter(o)), d, cs, d');
    var c2, r2 := Forth(Write(WTest(o)), d, r1, d');
    if d.outs[o].standby {
      var c3, r3 := Forth(Write(WTakeHw(o)), d, r2, d');
      WriteFindsAlone(o, d, r3, d');
      assert forall k | 0 <= k < |r3| :: r3[k] == cs[k + 3];
    } else {
      WritePlaysAlone(o, d, r2, d');
    }
  }

  // ------------------------------------------------------------------------------------- read

  /** read() on an input in standby: an active output is recycled first (`ready`), then the input is opened
      (`inReady`); `captured` says how the transfer ends. */
  ghost predicate ReadOutcome(d: Data, i: nat, ready: bool, inReady: bool, captured: bool, d': Data)
    requires InRange(d) && i < |d.ins|
  {
    && OnlyThese(d, ActiveOut(d), Some(i), d')
    && (ActiveOut(d).Some? ==>
          var s := d.outs[d.output.value];
          PlaysOrRests(s, d.handles.pcm.count > (if s.pcm.Some? then 1 else 0) || ready,
                       d'.handles, d'.outs[d.output.value]))
    && var s, s' := d.ins[i], d'.ins[i];
       if inReady && captured then !s'.standby && s'.standbyCnt == s.standbyCnt && s'.pcm else PutToStandbyIn(s, s')
  }

  lemma ReadLeavesAlone(i: nat, ok: bool, d: Data, cs: seq<Choice>, d': Data)
    requires Solo(Read(RLeave(i, ok)), d, cs, d') && i < |d.ins|
    ensures |cs| == (if ok then 1 else 7) && if ok then d' == d else InToStandby(d, i, d')
  {
    hide Solo, InToStandby;
    var c, rest := Forth(Read(RLeave(i, ok)), d, cs, d');
    if ok {
      Done(d, rest, d');
    } else {
      InOpAlone(i, IStandby, d, rest, d');
    }
  }

  lemma ReadCapturesAlone(i: nat, d: Data, cs: seq<Choice>, d': Data)
    requires Solo(Read(RCapture(i)), d, cs, d') && i < |d.ins|
    ensures |cs| > 1 && |cs| == (if cs[0].flag then 2 else 8)
    ensures if cs[0].flag then d' == d else InToStandby(d, i, d')
  {
    hide Solo, InToStandby;
    var c, rest := Forth(Read(RCapture(i)), d, cs, d');
    ReadLeavesAlone(i, c.flag, d, rest, d');
  }

  lemma ReadOpensAlone(i: nat, d: Data, cs: seq<Choice>, d': Data)
    requires Solo(Read(ROpen(i)), d, cs, d') && Agreed(d) && i < |d.ins| && d.ins[i].standby
    ensures |cs| > 2 && OnlyThese(d, None, Some(i), d') && d'.handles.pcm == d.handles.pcm
    ensures var s, s' := d.ins[i], d'.ins[i];
            if cs[0].inReady && cs[2].flag then !s'.standby && s'.standbyCnt == s.standbyCnt && s'.pcm
            else PutToStandbyIn(s, s')
  {
    hide Solo, Agreed, OpenIn;
    var c, r := Forth(Read(ROpen(i)), d, cs, d');
    OpenInGives(d.handles, d.ins[i], c) by { SoundWhenAgreed(d); }
    var e, u := ReadNext(ROpen(i), d, c).0, ReadNext(ROpen(i), d, c).1;
    assert u == Read(RLeaveHw(i, c.inReady));
    var c2, r2 := Forth(Read(RLeaveHw(i, c.inReady)), e, r, d');
    if c.inReady {
      ReadCapturesAlone(i, e, r2, d');
    } else {
      ReadLeavesAlone(i, false, e, r2, d');
    }
  }

  lemma SoundWhenAgreed(d: Data)
    requires Agreed(d)
    ensures Sound(d.handles.pcm) && Sound(d.handles.mixer)
  {
  }

  /** It lets go of its locks and takes those of output and input in order. */
  lemma ReadTakesOutAlone(i: nat, o: nat, d: Data, cs: seq<Choice>, d': Data) returns (rest: seq<Choice>)
    requires Solo(Read(RDropHw(i, o)), d, cs, d') && d.output == Some(o)
    ensures Solo(Read(RReopen(i, o)), d, rest, d')
    ensures |cs| == 6 + |rest| && forall k | 0 <= k < |rest| :: rest[k] == cs[k + 6]
  {
    hide Solo;
    var c1, r1 := Forth(Read(RDropHw(i, o)), d, cs, d');
    var c2, r2 := Forth(Read(RDropIn(i, o)), d, r1, d');
    var c3, r3 := Forth(Read(RTakeOut(i, o)), d, r2, d');
    var c4, r4 := Forth(Read(RTakeIn(i, o)), d, r3, d');
    var c5, r5 := Forth(Read(RRetakeHw(i, o)), d, r4, d');
    var c6;
    c6, rest := Forth(Read(RCheck(i, o)), d, r5, d');
  }

  lemma ReadRecyclesAlone(i: nat, o: nat, d: Data, cs: seq<Choice>, d': Data)
    requires Solo(Read(RReopen(i, o)), d, cs, d') && Agreed(d) && i < |d.ins| && d.ins[i].standby
    requires d.output == Some(o)
    ensures |cs| > 4 && ReadOutcome(d, i, cs[0].ready, cs[2].inReady, cs[4].flag, d')
  {
    hide Solo, Sound, OutReopen, CloseOut;
    var c1, r1 := Forth(Read(RReopen(i, o)), d, cs, d');
    RecycleStep(i, o, d, c1);
    var e := ReadNext(RReopen(i, o), d, c1).0;
    if !d.outs[o].standby {
      OutRecycleEffect(d, o, c1);
    }
    var c2, r2 := Forth(Read(RFreeOut(i, o)), e, r1, d');
    ReadOpensAlone(i, e, r2, d');
  }

  ghost predicate Captured(d: Data, i: nat, cs: seq<Choice>, d': Data)
    requires InRange(d) && i < |d.ins|
  {
    var n := if !d.ins[i].standby then 2 else if d.output.Some? then 14 else 6;
    && |cs| > n
    && if d.ins[i].standby then
         ReadOutcome(d, i, d.output.Some? && cs[n - 4].ready, cs[n - 2].inReady, cs[n].flag, d')
       else if cs[n].flag then d' == d
       else InToStandby(d, i, d')
  }

  /** read() captures from an active input; one in standby it opens and wakes if it can, having recycled the output
      if that is active. When the opening or the transfer fails the input is left in standby. */
  lemma ReadAlone(i: nat, d: Data, cs: seq<Choice>, d': Data)
    requires Solo(Read(REnter(i)), d, cs, d') && Agreed(d) && i < |d.ins|
    ensures |cs| > 1 && Captured(d, i, cs, d')
  {
    hide Solo, Sound, InToStandby;
    var c1, r1 := Forth(Read(REnter(i)), d, cs, d');
    var c2, r2 := Forth(Read(RTest(i)), d, r1, d');
    if d.ins[i].standby {
      var c3, r3 := Forth(Read(RTakeHw(i)), d, r2, d');
      var c4, r4 := Forth(Read(RScan(i)), d, r3, d');
      assert forall k | 0 <= k < |r4| :: r4[k] == cs[k + 4];
      if d.output.Some? {
        var rest := ReadTakesOutAlone(i, d.output.value, d, r4, d');
        ReadRecyclesAlone(i, d.output.value, d, rest, d');
        assert forall k | 0 <= k < |rest| :: rest[k] == cs[k + 10];
      } else {
        ReadOpensAlone(i, d, r4, d');
      }
    } else {
      ReadCapturesAlone(i, d, r2, d');
    }
  }

  // ------------------------------------------------------------------------- every operation

  /** The streams a request names exist. */
  predicate Exists(d: Data, op: Op) {
    match op
    case WriteTo(o) => o < |d.outs|
    case ReadFrom(i) => i < |d.ins|
    case OutOp(o, _) => o < |d.outs|
    case InOp(i, _) => i < |d.ins|
    case _ => true
  }

  /** What a whole operation does, by the request; cs are the answers it gets at its steps. */
  ghost predicate OperationOutcome(d: Data, op: Op, cs: seq<Choice>, d': Data)
    requires InRange(d) && Exists(d, op) && |cs| > 1
  {
    match op
    case SetMode(m) => 7 <= |cs| <= 15 && ModeOutcome(d, m, ActiveOut(d), Active(d), cs[|cs| - 4].flag, d')
    case SetMicMute =>
      if cs[1].flag && d.mode != InCall && Active(d).Some? then InToStandby(d, Active(d).value, d') else d' == d
    case WriteTo(o) => Written(d, o, cs, d')
    case ReadFrom(i) => Captured(d, i, cs, d')
    case OutOp(o, j) =>
      && |cs| == (if j == OStandby || cs[1].flag then 6 else 3)
      && if j == OStandby || (cs[1].flag && cs[3].flag && d.mode != InCall) then OutToStandby(d, o, d') else d' == d
    case InOp(i, IStandby) => InToStandby(d, i, d')
    case InOp(i, IRoute) =>
      && |cs| == (if cs[1].flag then 6 else 3)
      && if cs[1].flag && cs[3].flag && d.mode != InCall then InToStandby(d, i, d') else d' == d
    case InOp(i, ISource) =>
      var n := if cs[1].flag then 5 else 2;
      && |cs| > n && |cs| == n + (if cs[n].flag then 5 else 2)
      && RouteOutcome(d, i, cs[n].flag && cs[n + 2].flag && d.mode != InCall, d')
    case ListOp(j) => |cs| == 3 && ListOutcome(d, j, d')
  }

  /** Every request, taken up and carried out with nobody coming between, does what the source's method does. */
  lemma OperationAlone(op: Op, d: Data, cs: seq<Choice>, d': Data)
    requires Agreed(d) && Exists(d, op) && Solo(Start(d, op), d, cs, d')
    ensures |cs| > 1 && OperationOutcome(d, op, cs, d')
  {
    hide Solo, Active, ModeOutcome, ListOutcome, RouteOutcome, InToStandby, OutToStandby, Written, Captured, Sound;
    match op
    case SetMode(m) => SetModeAlone(m, d, cs, d');
    case SetMicMute => MicMuteAlone(d, cs, d');
    case WriteTo(o) => WriteAlone(o, d, cs, d');
    case ReadFrom(i) => ReadAlone(i, d, cs, d');
    case OutOp(o, j) => OutOpAlone(o, j, d, cs, d');
    case InOp(i, j) => if j == ISource { InSourceAlone(i, d, cs, d'); } else { InOpAlone(i, j, d, cs, d'); }
    case ListOp(j) => ListJobAlone(j, d, cs, d');
  }

  /** In any run, whatever other threads do before and after, every request that is not disturbed on its way. */
  lemma UndisturbedOperation(states: seq<System>, moves: seq<Move>, j: nat, l: nat, t: nat, op: Op)
    requires Run(states, moves) && Undisturbed(states, moves, j, l, t)
    requires states[j].threads[t] == Start(states[j].data, op) && Exists(states[j].data, op)
    ensures InRange(states[j].data) && l - j > 1 && |Choices(moves, j, l)| == l - j
    ensures OperationOutcome(states[j].data, op, Choices(moves, j, l), states[l].data)
  {
    hide Run, Solo, Active, OperationOutcome, Invariant, Next, Choices, Start, Exists;
    RunIsSafe(states, moves, j);
    SoloInRun(states, moves, j, l, t);
    AgreedWhenSafe(states[j]);
    OperationAlone(op, states[j].data, Choices(moves, j, l), states[l].data);
    ChoiceAt(moves, j, l, 0);
  }

  lemma AgreedWhenSafe(s: System)
    requires Invariant(s)
    ensures Agreed(s.data)
  {
  }

  lemma {:induction false} ChoiceAt(moves: seq<Move>, j: nat, l: nat, k: int)
    requires j <= l <= |moves|
    ensures |Choices(moves, j, l)| == l - j
    ensures 0 <= k < l - j ==> Choices(moves, j, l)[k] == moves[j + k].c
    decreases l - j
  {
    if j < l {
      ChoiceAt(moves, j + 1, l, k - 1);
    }
  }
}
