/** What the operations of the audio HAL achieve: which streams a step silences, opens or leaves alone, over any
    run; that a stream which plays or captures has its device open; and what a whole operation does when no
    other thread comes between. */
module AudioOutcomes {
  import opened Options
  import opened AudioHandles
  import opened AudioProtocol
  import opened AudioSafety
  import opened AudioConservation

  // ------------------------------------------------------------------------------- setMode

  /** The mode change is one that silences: into a call, or back to normal out of one. */
  predicate Silences(inCall: bool, m: AudioMode, accepted: bool) {
    accepted && (if m == InCall then !inCall else m == Normal && inCall)
  }

  /** What setMode leaves behind when it holds `out` and `inp`: those two are in standby, counted and without
      handles, if the change silences; every other stream, and without such a change all of them, are untouched. */
  ghost predicate ModeOutcome(d: Data, m: AudioMode, out: Option<nat>, inp: Option<nat>, accepted: bool, d': Data) {
    && d'.output == d.output && d'.inputs == d.inputs
    && |d'.outs| == |d.outs| && |d'.ins| == |d.ins|
    && d'.mode == (if accepted then m else d.mode)
    && d'.inCall == (if Silences(d.inCall, m, accepted) then m == InCall else d.inCall)
    && (forall o: nat | o < |d.outs| ::
          if Silences(d.inCall, m, accepted) && out == Some(o) then PutToStandbyOut(d.outs[o], d'.outs[o])
          else d'.outs[o] == d.outs[o])
    && (forall i: nat | i < |d.ins| ::
          if Silences(d.inCall, m, accepted) && inp == Some(i) then PutToStandbyIn(d.ins[i], d'.ins[i])
          else d'.ins[i] == d.ins[i])
    && (!Silences(d.inCall, m, accepted) ==> d'.handles == d.handles)
  }

  lemma SwitchCallOutcome(s: CallState, m: AudioMode, ready: bool, ok: bool)
    ensures var t := SwitchCall(s, m == InCall, m == Normal, ready, ok);
            if Silences(s.inCall, m, true) then
              && t.inCall == (m == InCall)
              && t.output.Some? == s.output.Some? && t.input.Some? == s.input.Some?
              && (s.output.Some? ==> PutToStandbyOut(s.output.value, t.output.value))
              && (s.input.Some? ==> PutToStandbyIn(s.input.value, t.input.value))
            else t == s
  {
  }

  lemma ApplyModeOutcome(d: Data, m: AudioMode, out: Option<nat>, inp: Option<nat>, c: Choice)
    requires out.Some? ==> out.value < |d.outs|
    requires inp.Some? ==> inp.value < |d.ins|
    ensures ModeOutcome(d, m, out, inp, c.flag, ApplyMode(d, m, out, inp, c))
  {
    hide SwitchCall;
    var s := CallState(d.handles, d.inCall,
                       if out.Some? then Some(d.outs[out.value]) else None,
                       if inp.Some? then Some(d.ins[inp.value]) else None);
    SwitchCallOutcome(s, m, c.ready, c.mixerOk);
  }

  /** In any run, at the step at which setMode does its work: the streams it has found were active and are in
      standby afterwards if the change silences, and it has the first active input if there is one. */
  lemma ModeChangeSilences(states: seq<System>, moves: seq<Move>, k: nat, t: nat,
                           m: AudioMode, out: Option<nat>, inp: Option<nat>)
    requires Run(states, moves) && k < |moves| && moves[k].t == t
    requires t < |states[k].threads| && states[k].threads[t] == Mode(MApply(m, out, inp))
    ensures var d, d' := states[k].data, states[k + 1].data;
            && ModeOutcome(d, m, out, inp, moves[k].c.flag, d')
            && (out.Some? ==> out.value < |d.outs| && !d.outs[out.value].standby)
            && (inp.Some? ==> inp.value < |d.ins| && !d.ins[inp.value].standby)
  {
    RevalidationIsSound(states, moves, k, t, m, out, inp);
    hide Run, ApplyMode, ModeOutcome;
    var s, c := states[k], moves[k].c;
    assert Enabled(s, t) && states[k + 1] == Step(s, t, c) by { StepOfRun(states, moves, k); }
    ApplyModeOutcome(s.data, m, out, inp, c);
  }

  lemma StepOfRun(states: seq<System>, moves: seq<Move>, k: nat)
    requires Run(states, moves) && k < |moves|
    ensures Enabled(states[k], moves[k].t) && states[k + 1] == Step(states[k], moves[k].t, moves[k].c)
  {
  }

  // ----------------------------------------------------------------------- the other steps

  /** Nothing changes but the handles, output o and input i. */
  ghost predicate OnlyThese(d: Data, out: Option<nat>, inp: Option<nat>, d': Data) {
    && d'.output == d.output && d'.inputs == d.inputs && d'.mode == d.mode && d'.inCall == d.inCall
    && |d'.outs| == |d.outs| && |d'.ins| == |d.ins|
    && (forall o: nat | o < |d.outs| && out != Some(o) :: d'.outs[o] == d.outs[o])
    && (forall i: nat | i < |d.ins| && inp != Some(i) :: d'.ins[i] == d.ins[i])
  }

  /** A handle can be had: somebody uses it already, or the driver opens it. */
  predicate Available(s: Shared, ok: bool) {
    s.count > 0 || ok
  }

  /** What opening an output stream gives it: the live PCM if that can be had, and with it the live mixer if
      that can be had. It does not touch the standby flag. */
  ghost predicate OpenedOut(h: Handles, s: OutStream, c: Choice, h': Handles, s': OutStream) {
    && s'.standby == s.standby && s'.standbyCnt == s.standbyCnt
    && if Available(h.pcm, c.ready) then
         && s'.pcm.Some? && s'.pcm == h'.pcm.handle && h'.pcm.count == h.pcm.count + 1
         && (s'.mixer.Some? <==> Available(h.mixer, c.mixerOk))
         && (s'.mixer.Some? ==> s'.mixer == h'.mixer.handle)
         && h'.mixer.count == h.mixer.count + (if s'.mixer.Some? then 1 else 0)
       else
         s'.pcm.None? && s'.mixer == s.mixer && h'.pcm.count == h.pcm.count && h'.mixer == h.mixer
  }

  /** The same for an input stream, whose capture device is its own. */
  ghost predicate OpenedIn(h: Handles, s: InStream, c: Choice, h': Handles, s': InStream) {
    && s'.standbyCnt == s.standbyCnt && h'.pcm == h.pcm
    && if c.inReady then
         && s'.pcm && s'.live == s.live + 1
         && (s'.mixer.Some? <==> Available(h.mixer, c.inMixerOk))
         && (s'.mixer.Some? ==> s'.mixer == h'.mixer.handle)
         && h'.mixer.count == h.mixer.count + (if s'.mixer.Some? then 1 else 0)
       else
         !s'.pcm && s'.mixer == s.mixer && s'.live == s.live && h'.mixer == h.mixer
  }

  /** What a close, or a standby, gives back: one use for each handle held. */
  ghost predicate GivenBack(s: Shared, held: bool, s': Shared) {
    s'.count == (if held && s.count > 0 then s.count - 1 else s.count)
  }

  lemma OpenOutGives(h: Handles, s: OutStream, c: Choice)
    requires Sound(h.pcm) && Sound(h.mixer)
    ensures var (h', s') := OpenOut(h, s, c.ready, c.mixerOk); OpenedOut(h, s, c, h', s')
  {
    OpenPcmSound(h.pcm, c.ready);
    OpenMixerSound(h.mixer, c.mixerOk);
  }

  lemma OpenInGives(h: Handles, s: InStream, c: Choice)
    requires Sound(h.pcm) && Sound(h.mixer)
    ensures var (h', s') := OpenIn(h, s, c.inReady, c.inMixerOk); OpenedIn(h, s, c, h', s') && s'.standby == s.standby
  {
    OpenMixerSound(h.mixer, c.inMixerOk);
  }

  lemma StandbyOutGives(h: Handles, s: OutStream)
    ensures var (h', s') := StandbyOut(h, s);
            && PutToStandbyOut(s, s')
            && GivenBack(h.pcm, s.pcm.Some?, h'.pcm) && GivenBack(h.mixer, s.mixer.Some?, h'.mixer)
  {
  }

  lemma StandbyInGives(h: Handles, s: InStream)
    ensures var (h', s') := StandbyIn(h, s);
            PutToStandbyIn(s, s') && h'.pcm == h.pcm && GivenBack(h.mixer, s.mixer.Some?, h'.mixer)
  {
  }

  /** write() has found the active input: it closes its devices, and does not count that as a standby. */
  ghost predicate ShutOutcome(d: Data, i: nat, d': Data)
    requires i < |d.ins|
  {
    && OnlyThese(d, None, Some(i), d')
    && d'.ins[i].standby == d.ins[i].standby && d'.ins[i].standbyCnt == d.ins[i].standbyCnt
    && !d'.ins[i].pcm && d'.ins[i].mixer.None?
    && d'.handles.pcm == d.handles.pcm && GivenBack(d.handles.mixer, d.ins[i].mixer.Some?, d'.handles.mixer)
  }

  /** write() opens the output, and reopens the input it has closed; if that fails the input is in standby. */
  ghost predicate WriteOpenOutcome(d: Data, o: nat, inp: Option<nat>, c: Choice, d': Data)
    requires o < |d.outs| && (inp.Some? ==> inp.value < |d.ins|)
  {
    && OnlyThese(d, Some(o), inp, d')
    && (inp.None? ==> OpenedOut(d.handles, d.outs[o], c, d'.handles, d'.outs[o]))
    && (d'.outs[o].pcm.Some? <==> Available(d.handles.pcm, c.ready))
    && (d'.outs[o].pcm.Some? ==> d'.outs[o].pcm == d'.handles.pcm.handle)
    && d'.outs[o].standby == d.outs[o].standby && d'.outs[o].standbyCnt == d.outs[o].standbyCnt
    && (inp.Some? ==>
          var s, s' := d.ins[inp.value], d'.ins[inp.value];
          if c.inReady then s'.pcm && s'.standby == s.standby && s'.standbyCnt == s.standbyCnt
          else PutToStandbyIn(s, s'))
  }

  /** read() recycles the output: an active one has its devices again, or is in standby if the PCM cannot be
      had once its own use of it is given back. */
  ghost predicate RecycleOutcome(d: Data, o: nat, c: Choice, d': Data)
    requires o < |d.outs|
  {
    && OnlyThese(d, Some(o), None, d')
    && var s, s' := d.outs[o], d'.outs[o];
       if s.standby then d' == d
       else if d.handles.pcm.count > (if s.pcm.Some? then 1 else 0) || c.ready then
         !s'.standby && s'.standbyCnt == s.standbyCnt && s'.pcm.Some? && s'.pcm == d'.handles.pcm.handle
       else PutToStandbyOut(s, s')
  }

  /** read() opens the input, which is awake exactly if it was or its device could be opened. */
  ghost predicate ReadOpenOutcome(d: Data, i: nat, c: Choice, d': Data)
    requires i < |d.ins|
  {
    && OnlyThese(d, None, Some(i), d')
    && OpenedIn(d.handles, d.ins[i], c, d'.handles, d'.ins[i])
    && d'.ins[i].standby == (d.ins[i].standby && !c.inReady)
  }

  /** s with x put in at some place. */
  ghost predicate Inserted(s: seq<nat>, x: nat, s': seq<nat>) {
    exists k: nat :: k <= |s| && s' == s[..k] + [x] + s[k..]
  }

  /** s without its first x. */
  ghost predicate FirstTaken(s: seq<nat>, x: nat, s': seq<nat>) {
    exists k: nat :: k < |s| && s[k] == x && x !in s[..k] && s' == s[..k] + s[k + 1..]
  }

  /** The list operations: what becomes of the two lists, and that a new stream is closed and in standby. */
  ghost predicate ListOutcome(d: Data, j: ListJob, d': Data) {
    && d'.handles == d.handles && d'.mode == d.mode && d'.inCall == d.inCall
    && match j
       case OpenOutput =>
         && d'.ins == d.ins && d'.inputs == d.inputs
         && (if d.output.Some? then d'.output == d.output && d'.outs == d.outs
             else d'.output == Some(|d.outs|) && d'.outs == d.outs + [NEW_OUT])
       case CloseOutput(o) =>
         && d'.ins == d.ins && d'.inputs == d.inputs && d'.outs == d.outs
         && d'.output == (if d.output == Some(o) then None else d.output)
       case OpenInput =>
         && d'.outs == d.outs && d'.output == d.output && d'.ins == d.ins + [NEW_IN]
         && Inserted(d.inputs, |d.ins|, d'.inputs)
       case CloseInput(i) =>
         && d'.outs == d.outs && d'.output == d.output && d'.ins == d.ins
         && (if i in d.inputs then FirstTaken(d.inputs, i, d'.inputs) else d'.inputs == d.inputs)
  }

  /** What a step does to the state, by the point its thread is at. All other steps change nothing. */
  ghost predicate StepOutcome(th: Thread, d: Data, c: Choice, d': Data, th': Thread)
    requires Known(th, d)
  {
    match th
    case Mode(MApply(m, out, inp)) => ModeOutcome(d, m, out, inp, c.flag, d')
    case Write(WCheck(o, i, cnt)) =>
      if th' == Write(WOpen(o, Some(i))) then ShutOutcome(d, i, d') else d' == d
    case Write(WOpen(o, inp)) => WriteOpenOutcome(d, o, inp, c, d')
    case Write(WWake(o)) =>
      && OnlyThese(d, Some(o), None, d') && d'.handles == d.handles
      && d'.outs[o] == d.outs[o].(standby := d.outs[o].standby && d.outs[o].pcm.None?)
    case Read(RReopen(i, o)) => RecycleOutcome(d, o, c, d')
    case Read(ROpen(i)) => ReadOpenOutcome(d, i, c, d')
    case Side(OBody(o, j)) =>
      if j == OStandby || (c.flag && d.mode != InCall)
      then OnlyThese(d, Some(o), None, d') && PutToStandbyOut(d.outs[o], d'.outs[o])
      else d' == d
    case Side(IBody(i, j)) =>
      if j == IStandby || (j == IRoute && c.flag && d.mode != InCall)
      then OnlyThese(d, None, Some(i), d') && PutToStandbyIn(d.ins[i], d'.ins[i])
      else OnlyThese(d, None, None, d') && d'.handles.pcm == d.handles.pcm
           && d'.handles.mixer.count == d.handles.mixer.count
    case Side(LBody(j)) => ListOutcome(d, j, d')
    case _ => d' == d
  }

  lemma {:induction false} WithoutAt(s: seq<nat>, i: nat) returns (k: nat)
    requires i in s
    ensures k < |s| && s[k] == i && i !in s[..k] && Without(s, i) == s[..k] + s[k + 1..]
  {
    if s[0] == i {
      k := 0;
      assert s[..0] + s[1..] == s[1..];
    } else {
      var rest := s[1..];
      assert s == [s[0]] + rest;
      var j := WithoutAt(rest, i);
      k := j + 1;
      TakenBehind(s[0], rest, j);
    }
  }

  lemma TakenBehind(x: nat, rest: seq<nat>, j: nat)
    requires j < |rest|
    ensures var s := [x] + rest;
            s[..j + 1] == [x] + rest[..j] && [x] + (rest[..j] + rest[j + 1..]) == s[..j + 1] + s[j + 2..]
  {
  }

  lemma {:induction false} WithoutNone(s: seq<nat>, i: nat)
    requires i !in s
    ensures Without(s, i) == s
  {
    if s != [] {
      WithoutNone(s[1..], i);
      assert s == [s[0]] + s[1..];
    }
  }

  lemma ListStep(d: Data, j: ListJob, place: nat)
    ensures ListOutcome(d, j, ListUpdate(d, j, place))
  {
    if j.CloseInput? {
      if j.i in d.inputs {
        var k := WithoutAt(d.inputs, j.i);
      } else {
        WithoutNone(d.inputs, j.i);
      }
    } else if j.OpenInput? {
      var k := if place <= |d.inputs| then place else |d.inputs|;
      assert ListUpdate(d, j, place).inputs == d.inputs[..k] + [|d.ins|] + d.inputs[k..];
    }
  }

  lemma WriteStep(p: WritePc, d: Data, c: Choice)
    requires CanStep(Write(p), d)
    ensures var (d', th') := WriteNext(p, d, c); StepOutcome(Write(p), d, c, d', th')
  {
    hide Sound, Active, OutOpen, InReopen, CloseIn, ShutOutcome, WriteOpenOutcome;
    match p
    case WCheck(o, i, cnt) => CloseInGives(d, i);
    case WOpen(o, inp) => WriteOpenStep(o, inp, d, c);
    case _ =>
  }

  lemma CloseInGives(d: Data, i: nat)
    requires i < |d.ins|
    ensures ShutOutcome(d, i, WithIn(d, i, CloseIn(d.handles, d.ins[i])))
  {
  }

  lemma OutOpenGives(d: Data, o: nat, c: Choice)
    requires Agreed(d) && o < |d.outs|
    ensures var e := OutOpen(d, o, c);
            && OnlyThese(d, Some(o), None, e) && OpenedOut(d.handles, d.outs[o], c, e.handles, e.outs[o])
            && Sound(e.handles.pcm) && Sound(e.handles.mixer)
  {
    hide Sound, OpenOut;
    OpenOutGives(d.handles, d.outs[o], c);
    OutOpsSound(d.handles, d.outs[o], c.ready, c.mixerOk);
  }

  lemma InReopenGives(d: Data, i: nat, c: Choice)
    requires Sound(d.handles.pcm) && Sound(d.handles.mixer) && i < |d.ins|
    ensures var e := InReopen(d, i, c);
            && OnlyThese(d, None, Some(i), e) && e.handles.pcm == d.handles.pcm
            && var s, s' := d.ins[i], e.ins[i];
               if c.inReady then s'.pcm && s'.standby == s.standby && s'.standbyCnt == s.standbyCnt
               else PutToStandbyIn(s, s')
  {
    hide Sound, OpenIn, StandbyIn;
    OpenInGives(d.handles, d.ins[i], c);
    var e := InOpen(d, i, c);
    StandbyInGives(e.handles, e.ins[i]);
  }

  lemma WriteOpenStep(o: nat, inp: Option<nat>, d: Data, c: Choice)
    requires Agreed(d) && Known(Write(WOpen(o, inp)), d)
    ensures WriteOpenOutcome(d, o, inp, c, WriteNext(WOpen(o, inp), d, c).0)
  {
    hide Sound, OutOpen, InReopen;
    OutOpenGives(d, o, c);
    if inp.Some? {
      InReopenGives(OutOpen(d, o, c), inp.value, c);
    }
  }

  lemma RecycleStep(i: nat, o: nat, d: Data, c: Choice)
    requires Agreed(d) && Known(Read(RReopen(i, o)), d)
    ensures RecycleOutcome(d, o, c, ReadNext(RReopen(i, o), d, c).0)
  {
    hide Sound, OpenOut, OpenIn, StandbyOut, Replay;
    if !d.outs[o].standby {
      OutOpsSound(d.handles, d.outs[o], false, false);
      var e := WithOut(d, o, CloseOut(d.handles, d.outs[o]));
      OpenOutGives(e.handles, e.outs[o], c);
      var f := OutOpen(e, o, c);
      StandbyOutGives(f.handles, f.outs[o]);
    }
  }

  lemma ReadStep(p: ReadPc, d: Data, c: Choice)
    requires CanStep(Read(p), d)
    ensures var (d', th') := ReadNext(p, d, c); StepOutcome(Read(p), d, c, d', th')
  {
    hide Sound, OpenOut, OpenIn, OutReopen, CloseOut, RecycleOutcome;
    match p
    case RReopen(i, o) => RecycleStep(i, o, d, c);
    case ROpen(i) => OpenInGives(d.handles, d.ins[i], c);
    case _ =>
  }

  lemma SideStep(p: SidePc, d: Data, c: Choice)
    requires CanStep(Side(p), d) && !p.IBody?
    ensures var (d', th') := SideNext(p, d, c); StepOutcome(Side(p), d, c, d', th')
  {
    hide Sound, StandbyOut, ListUpdate, ListOutcome, Active, GivenBack;
    match p
    case OBody(o, j) => StandbyOutGives(d.handles, d.outs[o]);
    case LBody(j) => ListStep(d, j, c.place);
    case _ =>
  }

  lemma SideInStep(i: nat, j: InJob, d: Data, c: Choice)
    requires CanStep(Side(IBody(i, j)), d)
    ensures var (d', th') := SideNext(IBody(i, j), d, c); StepOutcome(Side(IBody(i, j)), d, c, d', th')
  {
    hide Sound, StandbyIn, OpenMixer, CloseShared, GivenBack;
    StandbyInGives(d.handles, d.ins[i]);
    BorrowedCount(d.handles.mixer, c.mixerOk);
  }

  lemma BorrowedCount(s: Shared, ok: bool)
    requires Sound(s)
    ensures CloseShared(OpenMixer(s, ok).0).count == s.count
  {
    OpenMixerSound(s, ok);
  }

  lemma AnyStepOutcome(th: Thread, d: Data, c: Choice)
    requires CanStep(th, d)
    ensures var (d', th') := Next(th, d, c); StepOutcome(th, d, c, d', th')
  {
    hide Sound, WriteNext, ReadNext, SideNext, ApplyMode, ModeOutcome, Active;
    match th
    case Idle =>
    case Mode(p) =>
      if p.MApply? {
        ApplyModeOutcome(d, p.m, p.out, p.inp, c);
      }
    case Write(p) => WriteStep(p, d, c);
    case Read(p) => ReadStep(p, d, c);
    case Side(p) =>
      if p.IBody? { SideInStep(p.i, p.ij, d, c); } else { SideStep(p, d, c); }
  }

  /** Every step of every run does that, and nothing else. */
  lemma RunStepsHaveOutcomes(states: seq<System>, moves: seq<Move>, k: nat)
    requires Run(states, moves) && k < |moves|
    ensures var s, s', t := states[k], states[k + 1], moves[k].t;
            && Enabled(s, t) && |s'.threads| == |s.threads|
            && StepOutcome(s.threads[t], s.data, moves[k].c, s'.data, s'.threads[t])
  {
    RunIsSafe(states, moves, k);
    hide Run, StepOutcome, Next, ActionOf, Sound;
    var s, t, c := states[k], moves[k].t, moves[k].c;
    assert Enabled(s, t) && states[k + 1] == Step(s, t, c) by { StepOfRun(states, moves, k); }
    RunnersCanStep(s, t);
    AnyStepOutcome(s.threads[t], s.data, c);
  }

  lemma RunnersCanStep(s: System, t: nat)
    requires Invariant(s) && Enabled(s, t)
    ensures CanStep(s.threads[t], s.data)
  {
    hide Sound, Holds, ActionOf, Known;
    if ActionOf(s.threads[t]).Take? && ActionOf(s.threads[t]).l.Out? {
      TakenOutExists(s.threads[t], s.data);
    }
  }

  // ------------------------------------------------------------------------ what the loops find

  /** The output that setMode looks for. */
  function ActiveOut(d: Data): Option<nat>
    requires InRange(d)
  {
    if d.output.Some? && !d.outs[d.output.value].standby then d.output else None
  }

  /** Where the searching loops of setMode, write and read are left: with exactly the stream that is active, or is
      the output, at that moment, and with none only if there is none. */
  ghost predicate LeavesLoopWith(th: Thread, d: Data, th': Thread)
    requires InRange(d)
  {
    match th
    case Mode(p) =>
      && (FindingOut(p) ==> th'.Mode? && (FindingOut(th'.mp) || th' == Mode(MInScan(p.m, ActiveOut(d)))))
      && (FindingOut(p) ==> th'.mp.m == p.m)
      && (FindingIn(p) ==>
            || (th'.Mode? && FindingIn(th'.mp) && th'.mp.m == p.m && th'.mp.out == p.out)
            || th' == Mode(MApply(p.m, p.out, Active(d))))
    case Write(p) => th'.Write? && th'.wp.WOpen? ==> th' == Write(WOpen(p.o, Active(d)))
    case Read(p) =>
      && (th'.Read? && th'.rp.RReopen? ==> d.output == Some(th'.rp.o))
      && (th'.Read? && th'.rp.ROpen? ==> p.RFreeOut? || d.output.None?)
    case _ => true
  }

  lemma ModeLeavesLoop(p: ModePc, d: Data, c: Choice)
    requires CanStep(Mode(p), d)
    ensures LeavesLoopWith(Mode(p), d, ModeNext(p, d, c).1)
  {
    hide Sound, Active, ApplyMode;
  }

  lemma WriteLeavesLoop(p: WritePc, d: Data, c: Choice)
    requires CanStep(Write(p), d)
    ensures LeavesLoopWith(Write(p), d, WriteNext(p, d, c).1)
  {
    hide Sound, Active, OutOpen, InReopen, CloseIn, WithIn;
  }

  lemma ReadLeavesLoop(p: ReadPc, d: Data, c: Choice)
    requires CanStep(Read(p), d)
    ensures LeavesLoopWith(Read(p), d, ReadNext(p, d, c).1)
  {
    hide Sound, OutReopen, CloseOut, InOpen, WithOut;
  }

  /** So in any run, whatever other threads do between: a recheck that fails leads to another search, never to
      going on without the stream. */
  lemma LoopsFindActiveStreams(states: seq<System>, moves: seq<Move>, k: nat)
    requires Run(states, moves) && k < |moves|
    ensures var s, s', t := states[k], states[k + 1], moves[k].t;
            && t < |s.threads| == |s'.threads| && InRange(s.data)
            && LeavesLoopWith(s.threads[t], s.data, s'.threads[t])
  {
    RunIsSafe(states, moves, k);
    hide Run, LeavesLoopWith, ModeNext, WriteNext, ReadNext, SideNext, ActionOf, Sound, Active;
    var s, t, c := states[k], moves[k].t, moves[k].c;
    assert Enabled(s, t) && states[k + 1] == Step(s, t, c) by { StepOfRun(states, moves, k); }
    RunnersCanStep(s, t);
    match s.threads[t]
    case Mode(p) => ModeLeavesLoop(p, s.data, c);
    case Write(p) => WriteLeavesLoop(p, s.data, c);
    case Read(p) => ReadLeavesLoop(p, s.data, c);
    case _ => OtherwiseNoLoop(s.threads[t], s.data, states[k + 1].threads[t]);
  }

  lemma OtherwiseNoLoop(th: Thread, d: Data, th': Thread)
    requires InRange(d) && (th.Idle? || th.Side?)
    ensures LeavesLoopWith(th, d, th')
  {
  }

  // --------------------------------------------------------------- what plays has its device open

  /** The stream that a thread is about to write to or read from, having found or made it awake. */
  function PlaysOn(th: Thread): Option<nat> {
    match th
    case Write(WLeaveHw(o, awake)) => if awake then Some(o) else None
    case Write(WPlay(o)) => Some(o)
    case _ => None
  }

  function CapturesFrom(th: Thread): Option<nat> {
    match th
    case Read(RLeaveHw(i, awake)) => if awake then Some(i) else None
    case Read(RCapture(i)) => Some(i)
    case _ => None
  }

  ghost predicate Awake(th: Thread, d: Data) {
    && (PlaysOn(th).Some? ==>
          var o := PlaysOn(th).value; o < |d.outs| && Out(o) in Holds(th) && !d.outs[o].standby)
    && (CapturesFrom(th).Some? ==>
          var i := CapturesFrom(th).value; i < |d.ins| && In(i) in Holds(th) && !d.ins[i].standby)
  }

  ghost predicate OutsLive(d: Data) {
    forall o: nat | o < |d.outs| && !d.outs[o].standby :: d.outs[o].pcm.Some?
  }

  /** An active input without a device is one that a writer has closed and is about to reopen. */
  ghost predicate InsLive(s: System) {
    forall i: nat | i < |s.data.ins| && !s.data.ins[i].standby && !s.data.ins[i].pcm ::
      exists t: nat :: t < |s.threads| && ClosedIn(s.threads[t]) == Some(i)
  }

  /** One step, for the inputs: one that ends up active without a device was so before, and not in the hands of
      this thread, or this thread has just closed it. */
  ghost predicate LeavesInsLive(th: Thread, d: Data, d': Data, th': Thread) {
    forall i: nat | i < |d'.ins| && !d'.ins[i].standby && !d'.ins[i].pcm ::
      || ClosedIn(th') == Some(i)
      || (i < |d.ins| && d'.ins[i] == d.ins[i] && ClosedIn(th) != Some(i))
  }

  lemma StepKeepsOutsLive(th: Thread, d: Data, c: Choice)
    requires CanStep(th, d) && OutsLive(d)
    ensures OutsLive(Next(th, d, c).0)
  {
    hide Sound, Next, Agreed;
    AnyStepOutcome(th, d, c);
  }

  lemma StepLeavesInsLive(th: Thread, d: Data, c: Choice)
    requires CanStep(th, d) && Careful(th, d)
    ensures var (d', th') := Next(th, d, c); LeavesInsLive(th, d, d', th')
  {
    hide Sound, Agreed, ModeNext, WriteNext, ReadNext, SideNext;
    AnyStepOutcome(th, d, c);
    if th.Write? && th.wp.WCheck? {
      CheckShutsOrNot(th.wp, d, c);
    }
  }

  lemma CheckShutsOrNot(p: WritePc, d: Data, c: Choice)
    requires CanStep(Write(p), d) && p.WCheck?
    ensures WriteNext(p, d, c).1 == Write(WOpen(p.o, Some(p.i))) || WriteNext(p, d, c) == (d, Write(WUndo(p.o, p.i)))
  {
    hide Active, CloseIn;
  }

  lemma StepKeepsAwake(th: Thread, d: Data, c: Choice)
    requires CanStep(th, d) && Awake(th, d)
    ensures var (d', th') := Next(th, d, c); Awake(th', d')
  {
    hide Sound, Agreed, ModeNext, WriteNext, ReadNext, SideNext, StepOutcome;
    match th
    case Idle =>
    case Mode(p) => SideStaysAway(th, d, c);
    case Write(p) => WriteKeepsAwake(p, d, c);
    case Read(p) => ReadKeepsAwake(p, d, c);
    case Side(p) => SideStaysAway(th, d, c);
  }

  lemma WriteKeepsAwake(p: WritePc, d: Data, c: Choice)
    requires CanStep(Write(p), d) && Awake(Write(p), d)
    ensures var (d', th') := WriteNext(p, d, c); Awake(th', d')
  {
    hide Sound, Agreed, Active, OutOpen, InReopen, CloseIn;
  }

  lemma ReadKeepsAwake(p: ReadPc, d: Data, c: Choice)
    requires CanStep(Read(p), d) && Awake(Read(p), d)
    ensures var (d', th') := ReadNext(p, d, c); Awake(th', d')
  {
    hide Sound, Agreed, OpenIn, OutReopen, CloseOut;
  }

  lemma AwakeIsStable(th: Thread, d: Data, held: set<Lock>, d': Data)
    requires Awake(th, d) && Guarded(held, d, d') && held !! Holds(th)
    ensures Awake(th, d')
  {
    if PlaysOn(th).Some? {
      assert Out(PlaysOn(th).value) !in held;
    }
    if CapturesFrom(th).Some? {
      assert In(CapturesFrom(th).value) !in held;
    }
  }

  ghost predicate AllAwake(s: System) {
    forall t: nat | t < |s.threads| :: Awake(s.threads[t], s.data)
  }

  lemma StepKeepsAllAwake(s: System, t: nat, c: Choice)
    requires Invariant(s) && Enabled(s, t) && AllAwake(s) && OutsLive(s.data)
    ensures var s' := Step(s, t, c); AllAwake(s') && OutsLive(s'.data)
  {
    hide Sound, Next, Holds, ActionOf, Known, Agreed, Believes, Awake, OutsLive;
    var th, s' := s.threads[t], Step(s, t, c);
    RunnersCanStep(s, t);
    AnyStep(th, s.data, c);
    StepKeepsOutsLive(th, s.data, c);
    StepKeepsAwake(th, s.data, c);
    forall u: nat | u < |s'.threads| && u != t
      ensures Awake(s'.threads[u], s'.data)
    {
      assert forall l | l in Holds(th) :: s.owner[l] == t;
      assert forall l | l in Holds(s.threads[u]) :: s.owner[l] == u;
      AwakeIsStable(s.threads[u], s.data, Holds(th), s'.data);
    }
  }

  lemma {:induction false} OutputsStayLive(states: seq<System>, moves: seq<Move>, k: nat)
    requires Run(states, moves) && k < |states|
    ensures OutsLive(states[k].data) && AllAwake(states[k])
  {
    if k > 0 {
      OutputsStayLive(states, moves, k - 1);
      RunIsSafe(states, moves, k - 1);
      hide Run, Invariant, AllAwake, OutsLive, Step, Enabled;
      StepOfRun(states, moves, k - 1);
      StepKeepsAllAwake(states[k - 1], moves[k - 1].t, moves[k - 1].c);
    }
  }

  /** In every state of every run, an output that is not in standby has the PCM open; and a thread that is about
      to play does so on such an output, whose lock it holds. */
  lemma PlaysOnOpenDevice(states: seq<System>, moves: seq<Move>, k: nat)
    requires Run(states, moves) && k < |states|
    ensures var s := states[k];
            && (forall o: nat | o < |s.data.outs| && !s.data.outs[o].standby :: s.data.outs[o].pcm.Some?)
            && (forall t: nat, o: nat | t < |s.threads| && s.threads[t] == Write(WPlay(o)) ::
                  && o < |s.data.outs| && Out(o) in s.owner && s.owner[Out(o)] == t
                  && !s.data.outs[o].standby && s.data.outs[o].pcm.Some?)
  {
    OutputsStayLive(states, moves, k);
    RunIsSafe(states, moves, k);
    hide Run, Agreed, Believes, RestOut, AllAwake, Exclusive, Awake;
    WritersPlayAwake(states[k]);
  }

  lemma WritersPlayAwake(s: System)
    requires Exclusive(s) && AllAwake(s)
    ensures forall t: nat, o: nat | t < |s.threads| && s.threads[t] == Write(WPlay(o)) ::
              o < |s.data.outs| && Out(o) in s.owner && s.owner[Out(o)] == t && !s.data.outs[o].standby
  {
    forall t: nat, o: nat | t < |s.threads| && s.threads[t] == Write(WPlay(o))
      ensures o < |s.data.outs| && Out(o) in s.owner && s.owner[Out(o)] == t && !s.data.outs[o].standby
    {
      assert Awake(s.threads[t], s.data);
      assert Out(o) in Holds(s.threads[t]);
    }
  }

  lemma StepKeepsInsLive(s: System, t: nat, c: Choice)
    requires Invariant(s) && Conserved(s) && Enabled(s, t) && InsLive(s)
    ensures InsLive(Step(s, t, c))
  {
    hide Sound, Next, ActionOf, Known, Agreed, Believes, Exclusive, OneReaderEach, Balanced;
    var th, s' := s.threads[t], Step(s, t, c);
    RunnersCanStep(s, t);
    assert Careful(th, s.data);
    StepLeavesInsLive(th, s.data, c);
    forall i: nat | i < |s'.data.ins| && !s'.data.ins[i].standby && !s'.data.ins[i].pcm
      ensures exists u: nat :: u < |s'.threads| && ClosedIn(s'.threads[u]) == Some(i)
    {
      if ClosedIn(s'.threads[t]) != Some(i) {
        var u: nat :| u < |s.threads| && ClosedIn(s.threads[u]) == Some(i);
        assert s'.threads[u] == s.threads[u];
      }
    }
  }

  lemma {:induction false} InputsStayLive(states: seq<System>, moves: seq<Move>, k: nat)
    requires Run(states, moves) && k < |states|
    requires forall j | 0 <= j < k :: Proviso(states[j], moves[j].t, moves[j].c)
    ensures InsLive(states[k])
  {
    if k > 0 {
      InputsStayLive(states, moves, k - 1);
      RunIsSafe(states, moves, k - 1);
      ReferencesAreConserved(states, moves, k - 1);
      hide Run, Invariant, Conserved, InsLive, Step, Enabled;
      StepOfRun(states, moves, k - 1);
      StepKeepsInsLive(states[k - 1], moves[k - 1].t, moves[k - 1].c);
    }
  }

  /** With one reader for each input, a thread that is about to capture does so from an input that has its device
      open, and whose lock it holds. */
  lemma CapturesFromOpenDevice(states: seq<System>, moves: seq<Move>, k: nat, t: nat, i: nat)
    requires Run(states, moves) && k < |states|
    requires forall j | 0 <= j < k :: Proviso(states[j], moves[j].t, moves[j].c)
    requires t < |states[k].threads| && states[k].threads[t] == Read(RCapture(i))
    ensures var s := states[k];
            && i < |s.data.ins| && In(i) in s.owner && s.owner[In(i)] == t
            && !s.data.ins[i].standby && s.data.ins[i].pcm
  {
    InputsStayLive(states, moves, k);
    OutputsStayLive(states, moves, k);
    RunIsSafe(states, moves, k);
    ReferencesAreConserved(states, moves, k);
    hide Run, Proviso, Invariant, Conserved, AllAwake, InsLive;
    ReaderHasDevice(states[k], t, i);
  }

  lemma ReaderHasDevice(s: System, t: nat, i: nat)
    requires Invariant(s) && Conserved(s) && AllAwake(s) && InsLive(s)
    requires t < |s.threads| && s.threads[t] == Read(RCapture(i))
    ensures i < |s.data.ins| && In(i) in s.owner && s.owner[In(i)] == t && !s.data.ins[i].standby && s.data.ins[i].pcm
  {
    hide Agreed, Believes, Balanced, OneReaderEach, Sound, RestOut;
    assert Awake(s.threads[t], s.data) && In(i) in Holds(s.threads[t]);
  }
}
