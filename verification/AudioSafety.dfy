/** What every interleaving of the audio threads keeps: lock order and exclusion, absence of deadlock,
    soundness of the drop-retake-revalidate pattern, and agreement of counts with handles. */
module AudioSafety {
  import opened Options
  import opened AudioHandles
  import opened AudioProtocol

  // ------------------------------------------------------------------- what one step may do

  /** What taking, dropping or keeping locks does to the set a thread holds; a lock is only ever
      taken when it ranks above all of them. */
  ghost predicate Disciplined(th: Thread, th': Thread) {
    match ActionOf(th)
    case Take(l) =>
      && l !in Holds(th)
      && Holds(th') == Holds(th) + {l}
      && forall h | h in Holds(th) :: Rank(h) < Rank(l)
    case Drop(l) => l in Holds(th) && Holds(th') == Holds(th) - {l}
    case Local => Holds(th') == Holds(th)
  }

  lemma LockDiscipline(th: Thread, d: Data, c: Choice)
    requires Known(th, d)
    ensures Disciplined(th, Next(th, d, c).1)
  {
    match th
    case Idle =>
    case Mode(p) => ModeDiscipline(p, d, c);
    case Write(p) => WriteDiscipline(p, d, c);
    case Read(p) => ReadDiscipline(p, d, c);
    case Side(p) => SideDiscipline(p, d, c);
  }

  lemma ModeDiscipline(p: ModePc, d: Data, c: Choice)
    requires Known(Mode(p), d)
    ensures Disciplined(Mode(p), ModeNext(p, d, c).1)
  {
    hide ModeNext, Known, Disciplined;
    if FindingOut(p) {
      ModeSeeksOut(p, d, c);
    } else {
      ModeSeeksIn(p, d, c);
    }
  }

  lemma ModeSeeksOut(p: ModePc, d: Data, c: Choice)
    requires Known(Mode(p), d) && FindingOut(p)
    ensures Disciplined(Mode(p), ModeNext(p, d, c).1)
  {
    hide Sound, ApplyMode, WithIn, WithOut, CloseIn, CloseOut, OutOpen, OutReopen, InOpen, InReopen, Active,
      InRange, Known, OutId, InId;
  }

  lemma ModeSeeksIn(p: ModePc, d: Data, c: Choice)
    requires Known(Mode(p), d) && !FindingOut(p)
    ensures Disciplined(Mode(p), ModeNext(p, d, c).1)
  {
    hide Sound, ApplyMode, WithIn, WithOut, CloseIn, CloseOut, OutOpen, OutReopen, InOpen, InReopen, Active,
      InRange, Known, OutId, InId;
  }

  lemma WriteDiscipline(p: WritePc, d: Data, c: Choice)
    requires Known(Write(p), d)
    ensures Disciplined(Write(p), WriteNext(p, d, c).1)
  {
    hide Sound, ApplyMode, WithIn, WithOut, CloseIn, CloseOut, OutOpen, OutReopen, InOpen, InReopen, Active,
      InRange, Known, OutId, InId;
  }

  lemma ReadDiscipline(p: ReadPc, d: Data, c: Choice)
    requires Known(Read(p), d)
    ensures Disciplined(Read(p), ReadNext(p, d, c).1)
  {
    hide Sound, ApplyMode, WithIn, WithOut, CloseIn, CloseOut, OutOpen, OutReopen, InOpen, InReopen, Active,
      InRange, Known, OutId, InId;
  }

  lemma SideDiscipline(p: SidePc, d: Data, c: Choice)
    requires Known(Side(p), d)
    ensures Disciplined(Side(p), SideNext(p, d, c).1)
  {
    hide Sound, ApplyMode, WithIn, WithOut, CloseIn, CloseOut, OutOpen, OutReopen, InOpen, InReopen, Active,
      InRange, Known, OutId, InId, OutStandby, InStandby, ListUpdate, CloseShared, OpenMixer;
  }

  ghost predicate Evolved(standby: bool, cnt: nat, standby': bool, cnt': nat) {
    && cnt <= cnt'
    && (cnt == cnt' && !standby ==> !standby')
  }

  /** A thread writes nothing without the hardware lock, no stream without that stream's lock, and
      sends a stream to standby only by counting it. */
  ghost predicate Guarded(held: set<Lock>, d: Data, d': Data) {
    && |d.outs| <= |d'.outs|
    && |d.ins| <= |d'.ins|
    && (Hw !in held ==> d' == d)
    && (forall o: nat | o < |d.outs| ::
          && (Out(o) !in held ==> d'.outs[o] == d.outs[o])
          && Evolved(d.outs[o].standby, d.outs[o].standbyCnt, d'.outs[o].standby, d'.outs[o].standbyCnt))
    && (forall i: nat | i < |d.ins| ::
          && (In(i) !in held ==> d'.ins[i] == d.ins[i])
          && Evolved(d.ins[i].standby, d.ins[i].standbyCnt, d'.ins[i].standby, d'.ins[i].standbyCnt))
  }

  // ---------------------------------------------------------------- what a thread knows where

  /** The count a thread saw while the output was active, before it let go of the hardware lock. */
  function OutSnapshot(th: Thread): Option<(nat, nat)> {
    match th
    case Mode(MOutDrop(_, o, cnt)) => Some((o, cnt))
    case Mode(MOutTake(_, o, cnt)) => Some((o, cnt))
    case Mode(MOutRetake(_, o, cnt)) => Some((o, cnt))
    case Mode(MOutCheck(_, o, cnt)) => Some((o, cnt))
    case _ => None
  }

  function InSnapshot(th: Thread): Option<(nat, nat)> {
    match th
    case Mode(MInDrop(_, _, i, cnt)) => Some((i, cnt))
    case Mode(MInTake(_, _, i, cnt)) => Some((i, cnt))
    case Mode(MInRetake(_, _, i, cnt)) => Some((i, cnt))
    case Mode(MInCheck(_, _, i, cnt)) => Some((i, cnt))
    case Write(WDrop(_, i, cnt)) => Some((i, cnt))
    case Write(WTake(_, i, cnt)) => Some((i, cnt))
    case Write(WRetake(_, i, cnt)) => Some((i, cnt))
    case Write(WCheck(_, i, cnt)) => Some((i, cnt))
    case _ => None
  }

  /** The output a thread has revalidated: it relies on it being active. */
  function AwakeOut(th: Thread): Option<nat> {
    match th
    case Mode(MInScan(_, out)) => out
    case Mode(MInDrop(_, out, _, _)) => out
    case Mode(MInTake(_, out, _, _)) => out
    case Mode(MInRetake(_, out, _, _)) => out
    case Mode(MInCheck(_, out, _, _)) => out
    case Mode(MInUndo(_, out, _)) => out
    case Mode(MApply(_, out, _)) => out
    case _ => None
  }

  function AwakeIn(th: Thread): Option<nat> {
    match th
    case Mode(MApply(_, _, inp)) => inp
    case Write(WOpen(_, inp)) => inp
    case _ => None
  }

  /** The output that a writer found in standby and is about to open. */
  function AsleepOut(th: Thread): Option<nat> {
    match th
    case Write(WTakeHw(o)) => Some(o)
    case Write(WScan(o)) => Some(o)
    case Write(WDrop(o, _, _)) => Some(o)
    case Write(WTake(o, _, _)) => Some(o)
    case Write(WRetake(o, _, _)) => Some(o)
    case Write(WCheck(o, _, _)) => Some(o)
    case Write(WUndo(o, _)) => Some(o)
    case Write(WOpen(o, _)) => Some(o)
    case Write(WFreeIn(o, _)) => Some(o)
    case Write(WWake(o)) => Some(o)
    case _ => None
  }

  /** The only points where an output in standby may hold handles: opened, not yet marked active. */
  predicate Opening(th: Thread) {
    th.Write? && (th.wp.WFreeIn? || th.wp.WWake?)
  }

  /** A stream in standby holds no handle. */
  ghost predicate RestOut(s: OutStream) {
    s.standby ==> s.pcm.None? && s.mixer.None?
  }

  ghost predicate RestIn(s: InStream) {
    s.standby ==> !s.pcm && s.mixer.None?
  }

  /** A snapshot that still matches the current count says that the stream is still active. */
  ghost predicate Current(seen: nat, standby: bool, cnt: nat) {
    seen <= cnt && (seen == cnt ==> !standby)
  }

  /** The assertion a thread carries at each point of its program. */
  ghost predicate Believes(th: Thread, d: Data) {
    && Known(th, d)
    && (OutSnapshot(th).Some? ==>
          var (o, cnt) := OutSnapshot(th).value;
          o < |d.outs| && Current(cnt, d.outs[o].standby, d.outs[o].standbyCnt))
    && (InSnapshot(th).Some? ==>
          var (i, cnt) := InSnapshot(th).value;
          i < |d.ins| && Current(cnt, d.ins[i].standby, d.ins[i].standbyCnt))
    && (AwakeOut(th).Some? ==>
          var o := AwakeOut(th).value;
          o < |d.outs| && Out(o) in Holds(th) && !d.outs[o].standby)
    && (AwakeIn(th).Some? ==>
          var i := AwakeIn(th).value;
          i < |d.ins| && In(i) in Holds(th) && !d.ins[i].standby)
    && (AsleepOut(th).Some? ==>
          var o := AsleepOut(th).value;
          o < |d.outs| && Out(o) in Holds(th) && d.outs[o].standby)
    && (OutId(th).Some? && Out(OutId(th).value) in Holds(th) ==>
          var s := d.outs[OutId(th).value];
          if Opening(th) then s.pcm.None? ==> s.mixer.None? else RestOut(s))
  }

  /** What no thread disturbs for another: a belief rests on locks its owner holds, or only on
      counts that never go back. */
  lemma BeliefIsStable(th: Thread, d: Data, held: set<Lock>, d': Data)
    requires Believes(th, d) && Guarded(held, d, d') && InRange(d')
    requires held !! Holds(th)
    ensures Believes(th, d')
  {
    if OutId(th).Some? && Out(OutId(th).value) in Holds(th) {
      assert Out(OutId(th).value) !in held;
    }
    if AwakeOut(th).Some? {
      assert Out(AwakeOut(th).value) !in held;
    }
    if AwakeIn(th).Some? {
      assert In(AwakeIn(th).value) !in held;
    }
    if AsleepOut(th).Some? {
      assert Out(AsleepOut(th).value) !in held;
    }
  }

  /** Facts about the shared state that hold wherever the threads are. */
  ghost predicate Agreed(d: Data) {
    && InRange(d)
    && Sound(d.handles.pcm)
    && Sound(d.handles.mixer)
    && forall i | 0 <= i < |d.ins| :: RestIn(d.ins[i])
  }

  /** One step of one thread, seen from its own locks and its own beliefs. */
  ghost predicate GoodStep(th: Thread, d: Data, d': Data, th': Thread) {
    && Guarded(Holds(th), d, d')
    && Agreed(d')
    && Believes(th', d')
    && (forall o: nat | |d.outs| <= o < |d'.outs| :: RestOut(d'.outs[o]))
  }

  ghost predicate CanStep(th: Thread, d: Data) {
    && Agreed(d)
    && Believes(th, d)
    && (ActionOf(th).Take? && ActionOf(th).l.Out? ==>
          ActionOf(th).l.o < |d.outs| && RestOut(d.outs[ActionOf(th).l.o]))
  }

  lemma OutOpsSound(h: Handles, s: OutStream, ready: bool, ok: bool)
    requires Sound(h.pcm) && Sound(h.mixer)
    ensures Sound(OpenOut(h, s, ready, ok).0.pcm) && Sound(OpenOut(h, s, ready, ok).0.mixer)
    ensures Sound(CloseOut(h, s).0.pcm) && Sound(CloseOut(h, s).0.mixer)
    ensures Sound(StandbyOut(h, s).0.pcm) && Sound(StandbyOut(h, s).0.mixer)
  {
    OpenPcmSound(h.pcm, ready);
    OpenMixerSound(h.mixer, ok);
    CloseSharedSound(h.pcm);
    CloseSharedSound(h.mixer);
  }

  lemma InOpsSound(h: Handles, s: InStream, ready: bool, ok: bool)
    requires Sound(h.pcm) && Sound(h.mixer)
    ensures Sound(OpenIn(h, s, ready, ok).0.pcm) && Sound(OpenIn(h, s, ready, ok).0.mixer)
    ensures Sound(CloseIn(h, s).0.pcm) && Sound(CloseIn(h, s).0.mixer)
    ensures Sound(StandbyIn(h, s).0.pcm) && Sound(StandbyIn(h, s).0.mixer)
  {
    OpenMixerSound(h.mixer, ok);
    CloseSharedSound(h.mixer);
  }

  lemma SwitchCallSound(s: CallState, enter: bool, leave: bool, ready: bool, ok: bool)
    requires Sound(s.handles.pcm) && Sound(s.handles.mixer)
    ensures var t := SwitchCall(s, enter, leave, ready, ok); Sound(t.handles.pcm) && Sound(t.handles.mixer)
  {
    CloseSharedSound(s.handles.pcm);
    CloseSharedSound(s.handles.mixer);
    var s' := if leave && s.inCall && !(enter && !s.inCall)
              then s.(handles := Handles(CloseShared(s.handles.pcm), CloseShared(s.handles.mixer)), inCall := false)
              else s;
    if s'.output.Some? {
      OutOpsSound(s'.handles, s'.output.value, ready, ok);
    }
    var h := if s'.output.None? then s'.handles else StandbyOut(s'.handles, s'.output.value).0;
    if s'.input.Some? {
      InOpsSound(h, s'.input.value, ready, ok);
    }
    var f := ForceStandby(s');
    OpenPcmSound(f.handles.pcm, ready);
    OpenMixerSound(f.handles.mixer, ok);
  }

  // ------------------------------------------------- what the operations do to the whole state

  lemma OutStandbyEffect(d: Data, o: nat)
    requires Agreed(d) && o < |d.outs|
    ensures var e := OutStandby(d, o);
            && Agreed(e)
            && e.outs == d.outs[o := OutStream(true, d.outs[o].standbyCnt + 1, None, None)]
            && e.ins == d.ins && e.output == d.output && e.inputs == d.inputs
  {
    OutOpsSound(d.handles, d.outs[o], false, false);
  }

  lemma InStandbyEffect(d: Data, i: nat)
    requires Agreed(d) && i < |d.ins|
    ensures var e := InStandby(d, i);
            && Agreed(e)
            && e.ins == d.ins[i := e.ins[i]] && e.outs == d.outs && e.output == d.output && e.inputs == d.inputs
            && e.ins[i].standby && e.ins[i].standbyCnt == d.ins[i].standbyCnt + 1
  {
    InOpsSound(d.handles, d.ins[i], false, false);
  }

  lemma OutOpenEffect(d: Data, o: nat, c: Choice)
    requires Agreed(d) && o < |d.outs|
    ensures var e := OutOpen(d, o, c);
            && Agreed(e)
            && e.outs == d.outs[o := e.outs[o]] && e.ins == d.ins && e.output == d.output && e.inputs == d.inputs
            && e.outs[o].standby == d.outs[o].standby && e.outs[o].standbyCnt == d.outs[o].standbyCnt
            && (e.outs[o].pcm.None? ==> e.outs[o].mixer == d.outs[o].mixer)
  {
    OutOpsSound(d.handles, d.outs[o], c.ready, c.mixerOk);
  }

  lemma OutRecycleEffect(d: Data, o: nat, c: Choice)
    requires Agreed(d) && o < |d.outs| && !d.outs[o].standby
    ensures var e := OutReopen(WithOut(d, o, CloseOut(d.handles, d.outs[o])), o, c);
            && Agreed(e)
            && e.outs == d.outs[o := e.outs[o]] && e.ins == d.ins && e.output == d.output && e.inputs == d.inputs
            && RestOut(e.outs[o])
            && d.outs[o].standbyCnt <= e.outs[o].standbyCnt
            && (e.outs[o].standby ==> d.outs[o].standbyCnt < e.outs[o].standbyCnt)
  {
    hide Sound, OpenOut;
    OutOpsSound(d.handles, d.outs[o], false, false);
    var e := WithOut(d, o, CloseOut(d.handles, d.outs[o]));
    OutOpenEffect(e, o, c);
    OutStandbyEffect(OutOpen(e, o, c), o);
  }

  lemma InCloseEffect(d: Data, i: nat)
    requires Agreed(d) && i < |d.ins| && !d.ins[i].standby
    ensures var e := WithIn(d, i, CloseIn(d.handles, d.ins[i]));
            && Agreed(e)
            && e.ins == d.ins[i := e.ins[i]] && e.outs == d.outs && e.output == d.output && e.inputs == d.inputs
            && e.ins[i].standbyCnt == d.ins[i].standbyCnt && !e.ins[i].standby
  {
    InOpsSound(d.handles, d.ins[i], false, false);
  }

  lemma InReopenEffect(d: Data, i: nat, c: Choice)
    requires Agreed(d) && i < |d.ins| && !d.ins[i].standby
    ensures var e := InReopen(d, i, c);
            && Agreed(e)
            && e.ins == d.ins[i := e.ins[i]] && e.outs == d.outs && e.output == d.output && e.inputs == d.inputs
            && d.ins[i].standbyCnt <= e.ins[i].standbyCnt
            && (e.ins[i].standby ==> d.ins[i].standbyCnt < e.ins[i].standbyCnt)
  {
    hide Sound;
    InOpsSound(d.handles, d.ins[i], c.inReady, c.inMixerOk);
    var f := InOpen(d, i, c);
    InOpsSound(f.handles, f.ins[i], false, false);
  }

  lemma InOpenEffect(d: Data, i: nat, c: Choice)
    requires Agreed(d) && i < |d.ins|
    ensures var d' := ReadNext(ROpen(i), d, c).0;
            && Agreed(d')
            && d'.ins == d.ins[i := d'.ins[i]] && d'.outs == d.outs && d'.output == d.output && d'.inputs == d.inputs
            && d'.ins[i].standbyCnt == d.ins[i].standbyCnt
            && (d'.ins[i].standby ==> d.ins[i].standby)
  {
    hide Sound;
    InOpsSound(d.handles, d.ins[i], c.inReady, c.inMixerOk);
  }

  ghost predicate PutToStandbyOut(s: OutStream, s': OutStream) {
    s' == OutStream(true, s.standbyCnt + 1, None, None)
  }

  ghost predicate PutToStandbyIn(s: InStream, s': InStream) {
    s'.standby && s'.standbyCnt == s.standbyCnt + 1 && !s'.pcm && s'.mixer.None?
  }

  lemma SwitchCallShape(s: CallState, enter: bool, leave: bool, ready: bool, ok: bool)
    ensures var t := SwitchCall(s, enter, leave, ready, ok);
            && t.output.Some? == s.output.Some? && t.input.Some? == s.input.Some?
            && (t.output == s.output || PutToStandbyOut(s.output.value, t.output.value))
            && (t.input == s.input || PutToStandbyIn(s.input.value, t.input.value))
  {
  }

  /** setMode's body leaves every stream alone except those it has locked, and it leaves those
      either as they were or in standby, counted and without handles. */
  lemma ApplyModeEffect(d: Data, m: AudioMode, out: Option<nat>, inp: Option<nat>, c: Choice)
    requires Agreed(d)
    requires out.Some? ==> out.value < |d.outs|
    requires inp.Some? ==> inp.value < |d.ins|
    ensures var d' := ApplyMode(d, m, out, inp, c);
            && Agreed(d')
            && d'.output == d.output && d'.inputs == d.inputs
            && |d'.outs| == |d.outs| && |d'.ins| == |d.ins|
            && (forall o: nat | o < |d.outs| ::
                  d'.outs[o] == d.outs[o] || (out == Some(o) && PutToStandbyOut(d.outs[o], d'.outs[o])))
            && (forall i: nat | i < |d.ins| ::
                  d'.ins[i] == d.ins[i] || (inp == Some(i) && PutToStandbyIn(d.ins[i], d'.ins[i])))
  {
    hide Sound, SwitchCall;
    var s := CallState(d.handles, d.inCall,
                       if out.Some? then Some(d.outs[out.value]) else None,
                       if inp.Some? then Some(d.ins[inp.value]) else None);
    SwitchCallSound(s, m == InCall, m == Normal, c.ready, c.mixerOk);
    SwitchCallShape(s, m == InCall, m == Normal, c.ready, c.mixerOk);
  }

  lemma ListEffect(d: Data, j: ListJob, place: nat)
    requires Agreed(d)
    ensures var e := ListUpdate(d, j, place);
            && Agreed(e)
            && (e.outs == d.outs || e.outs == d.outs + [NEW_OUT])
            && (e.ins == d.ins || e.ins == d.ins + [NEW_IN])
  {
    hide Sound;
    var e := ListUpdate(d, j, place);
    forall k | 0 <= k < |e.inputs|
      ensures e.inputs[k] < |e.ins|
    {
      assert e.inputs[k] in e.inputs;
      assert e.inputs[k] in d.inputs || e.inputs[k] == |d.ins| < |e.ins|;
    }
  }

  // ------------------------------------------------------------------------- every step is good

  predicate FindingOut(p: ModePc) {
    p.MEnter? || p.MOutScan? || p.MOutDrop? || p.MOutTake? || p.MOutRetake? || p.MOutCheck? || p.MOutUndo?
  }

  /** Steps that only move locks or local variables carry the beliefs of the next point. */
  lemma ModeFindsOut(p: ModePc, d: Data, c: Choice)
    requires CanStep(Mode(p), d) && FindingOut(p)
    ensures ModeNext(p, d, c).0 == d && Believes(ModeNext(p, d, c).1, d)
  {
    hide Sound;
  }

  predicate FindingIn(p: ModePc) {
    p.MInScan? || p.MInDrop? || p.MInTake? || p.MInRetake? || p.MInCheck? || p.MInUndo?
  }

  lemma ModeFindsIn(p: ModePc, d: Data, c: Choice)
    requires CanStep(Mode(p), d) && FindingIn(p)
    ensures ModeNext(p, d, c).0 == d && Believes(ModeNext(p, d, c).1, d)
  {
    hide Sound, Active;
  }

  lemma ModeEnds(p: ModePc, d: Data, c: Choice)
    requires CanStep(Mode(p), d) && !FindingOut(p) && !FindingIn(p) && !p.MApply?
    ensures ModeNext(p, d, c).0 == d && Believes(ModeNext(p, d, c).1, d)
  {
    hide Sound;
  }

  lemma ModeApplies(m: AudioMode, out: Option<nat>, inp: Option<nat>, d: Data, c: Choice)
    requires CanStep(Mode(MApply(m, out, inp)), d)
    ensures var (d', th') := ModeNext(MApply(m, out, inp), d, c); GoodStep(Mode(MApply(m, out, inp)), d, d', th')
  {
    hide Sound, ApplyMode;
    ApplyModeEffect(d, m, out, inp, c);
  }

  lemma WriteWaits(p: WritePc, d: Data, c: Choice)
    requires CanStep(Write(p), d) && !p.WCheck? && !p.WOpen? && !p.WWake?
    ensures WriteNext(p, d, c).0 == d && Believes(WriteNext(p, d, c).1, d)
  {
    hide Sound;
  }

  lemma WriteShuts(p: WritePc, d: Data, c: Choice)
    requires CanStep(Write(p), d) && p.WCheck?
    ensures var (d', th') := WriteNext(p, d, c); GoodStep(Write(p), d, d', th')
  {
    hide Sound, CloseIn;
    if Active(d) == Some(p.i) {
      InCloseEffect(d, p.i);
    }
  }

  lemma WriteWakes(p: WritePc, d: Data, c: Choice)
    requires CanStep(Write(p), d) && p.WWake?
    ensures var (d', th') := WriteNext(p, d, c); GoodStep(Write(p), d, d', th')
  {
    hide Sound, Active;
  }

  lemma WriteOpens(o: nat, inp: Option<nat>, d: Data, c: Choice)
    requires CanStep(Write(WOpen(o, inp)), d)
    ensures var (d', th') := WriteNext(WOpen(o, inp), d, c); GoodStep(Write(WOpen(o, inp)), d, d', th')
  {
    hide Sound, OutOpen, InReopen;
    OutOpenEffect(d, o, c);
    if inp.Some? {
      InReopenEffect(OutOpen(d, o, c), inp.value, c);
    }
  }

  lemma ReadWaits(p: ReadPc, d: Data, c: Choice)
    requires CanStep(Read(p), d) && !p.RReopen? && !p.ROpen?
    ensures ReadNext(p, d, c).0 == d && Believes(ReadNext(p, d, c).1, d)
  {
    hide Sound;
  }

  lemma ReadWorks(p: ReadPc, d: Data, c: Choice)
    requires CanStep(Read(p), d) && (p.RReopen? || p.ROpen?)
    ensures var (d', th') := ReadNext(p, d, c); GoodStep(Read(p), d, d', th')
  {
    hide Sound, OutReopen, CloseOut, InOpen;
    if p.ROpen? {
      InOpenEffect(d, p.i, c);
    } else if !d.outs[p.o].standby {
      OutRecycleEffect(d, p.o, c);
    }
  }

  lemma SideWaits(p: SidePc, d: Data, c: Choice)
    requires CanStep(Side(p), d) && !p.OBody? && !p.IBody? && !p.LBody?
    ensures SideNext(p, d, c).0 == d && Believes(SideNext(p, d, c).1, d)
  {
    hide Sound;
  }

  lemma SideWorks(p: SidePc, d: Data, c: Choice)
    requires CanStep(Side(p), d) && (p.OBody? || p.LBody?)
    ensures var (d', th') := SideNext(p, d, c); GoodStep(Side(p), d, d', th')
  {
    hide Sound, OutStandby, InStandby, ListUpdate, OpenMixer, CloseShared;
    match p
    case OBody(o, _) => OutStandbyEffect(d, o);
    case LBody(j) => ListEffect(d, j, c.place);
  }

  lemma SideWorksOnInput(p: SidePc, d: Data, c: Choice)
    requires CanStep(Side(p), d) && p.IBody?
    ensures var (d', th') := SideNext(p, d, c); GoodStep(Side(p), d, d', th')
  {
    hide Sound, OutStandby, InStandby, ListUpdate, OpenMixer, CloseShared;
    InStandbyEffect(d, p.i);
    OpenMixerSound(d.handles.mixer, c.mixerOk);
    CloseSharedSound(OpenMixer(d.handles.mixer, c.mixerOk).0);
  }

  lemma AnyStep(th: Thread, d: Data, c: Choice)
    requires CanStep(th, d)
    ensures var (d', th') := Next(th, d, c); GoodStep(th, d, d', th')
  {
    hide Sound, ModeNext, WriteNext, ReadNext, SideNext;
    match th
    case Idle =>
    case Mode(p) =>
      if p.MApply? { ModeApplies(p.m, p.out, p.inp, d, c); }
      else if FindingOut(p) { ModeFindsOut(p, d, c); }
      else if FindingIn(p) { ModeFindsIn(p, d, c); }
      else { ModeEnds(p, d, c); }
    case Write(p) =>
      if p.WOpen? { WriteOpens(p.o, p.inp, d, c); }
      else if p.WCheck? { WriteShuts(p, d, c); }
      else if p.WWake? { WriteWakes(p, d, c); }
      else { WriteWaits(p, d, c); }
    case Read(p) =>
      if p.RReopen? || p.ROpen? { ReadWorks(p, d, c); } else { ReadWaits(p, d, c); }
    case Side(p) =>
      if p.OBody? || p.LBody? { SideWorks(p, d, c); }
      else if p.IBody? { SideWorksOnInput(p, d, c); }
      else { SideWaits(p, d, c); }
  }

  // ----------------------------------------------------------------------------- every run is safe

  /** The mutexes agree with the programs: a lock is owned exactly by the thread that holds it. */
  ghost predicate Exclusive(s: System) {
    && (forall t: nat, l | t < |s.threads| && l in Holds(s.threads[t]) :: l in s.owner && s.owner[l] == t)
    && (forall l | l in s.owner :: s.owner[l] < |s.threads| && l in Holds(s.threads[s.owner[l]]))
  }

  ghost predicate Invariant(s: System) {
    && Exclusive(s)
    && Agreed(s.data)
    && (forall t: nat | t < |s.threads| :: Believes(s.threads[t], s.data))
    && (forall o: nat | o < |s.data.outs| && Out(o) !in s.owner :: RestOut(s.data.outs[o]))
  }

  lemma StepKeepsExclusive(s: System, t: nat, c: Choice)
    requires Exclusive(s) && Enabled(s, t)
    ensures Exclusive(Step(s, t, c))
  {
    hide Sound, ModeNext, WriteNext, ReadNext, SideNext, Holds, ActionOf, Known, Next;
    var th, th', s' := s.threads[t], Next(s.threads[t], s.data, c).1, Step(s, t, c);
    LockDiscipline(th, s.data, c);
    forall u: nat, l | u < |s'.threads| && l in Holds(s'.threads[u])
      ensures l in s'.owner && s'.owner[l] == u
    {
      if u == t {
        assert l in Holds(th');
        if l in Holds(th) {
          assert l in s.owner && s.owner[l] == t;
        }
      } else {
        assert l in Holds(s.threads[u]);
        assert l in s.owner && s.owner[l] == u;
      }
    }
    forall l | l in s'.owner
      ensures s'.owner[l] < |s'.threads| && l in Holds(s'.threads[s'.owner[l]])
    {
      if l in s.owner && s'.owner[l] == s.owner[l] {
        assert l in Holds(s.threads[s.owner[l]]);
      }
    }
  }

  lemma StepKeepsInvariant(s: System, t: nat, c: Choice)
    requires Invariant(s) && Enabled(s, t)
    ensures Invariant(Step(s, t, c))
  {
    hide Sound, Next, Holds, ActionOf, Known;
    var th, s' := s.threads[t], Step(s, t, c);
    StepKeepsExclusive(s, t, c);
    assert CanStep(th, s.data) by {
      if ActionOf(th).Take? && ActionOf(th).l.Out? {
        TakenOutExists(th, s.data);
      }
    }
    AnyStep(th, s.data, c);
    LockDiscipline(th, s.data, c);
    forall u: nat | u < |s'.threads| && u != t
      ensures Believes(s'.threads[u], s'.data)
    {
      assert forall l | l in Holds(th) :: s.owner[l] == t;
      assert forall l | l in Holds(s.threads[u]) :: s.owner[l] == u;
      BeliefIsStable(s.threads[u], s.data, Holds(th), s'.data);
    }
    forall o: nat | o < |s'.data.outs| && Out(o) !in s'.owner
      ensures RestOut(s'.data.outs[o])
    {
      if o < |s.data.outs| && Out(o) in s.owner {
        DropLeavesRest(th, s.data, o);
        assert s'.data.outs[o] == s.data.outs[o] by {
          DropChangesNothing(th, s.data, c);
        }
      }
    }
  }

  lemma TakenOutExists(th: Thread, d: Data)
    requires Known(th, d) && ActionOf(th).Take? && ActionOf(th).l.Out?
    ensures ActionOf(th).l.o < |d.outs|
  {
  }

  lemma DropLeavesRest(th: Thread, d: Data, o: nat)
    requires Believes(th, d) && ActionOf(th) == Drop(Out(o)) && o < |d.outs|
    ensures RestOut(d.outs[o])
  {
  }

  lemma DropChangesNothing(th: Thread, d: Data, c: Choice)
    requires Known(th, d) && ActionOf(th).Drop?
    ensures Next(th, d, c).0 == d
  {
  }

  lemma InitialInvariant(s: System)
    requires Initial(s)
    ensures Invariant(s)
  {
  }

  /** Every state of every run satisfies the invariant. */
  lemma {:induction false} RunIsSafe(states: seq<System>, moves: seq<Move>, k: nat)
    requires Run(states, moves) && k < |states|
    ensures Invariant(states[k])
  {
    if k == 0 {
      InitialInvariant(states[0]);
    } else {
      RunIsSafe(states, moves, k - 1);
      StepKeepsInvariant(states[k - 1], moves[k - 1].t, moves[k - 1].c);
    }
  }

  // ------------------------------------------------------------------------------- what follows

  /** Thread t cannot move because u owns the mutex it is about to take. */
  ghost predicate WaitsFor(s: System, t: nat, u: nat) {
    && t < |s.threads|
    && ActionOf(s.threads[t]).Take?
    && ActionOf(s.threads[t]).l in s.owner
    && s.owner[ActionOf(s.threads[t]).l] == u
  }

  /** A thread that waits for one that waits asks for a lock of lower rank. */
  lemma WaitingClimbs(s: System, t: nat, u: nat)
    requires Invariant(s) && WaitsFor(s, t, u) && u < |s.threads| && ActionOf(s.threads[u]).Take?
    ensures Rank(ActionOf(s.threads[t]).l) < Rank(ActionOf(s.threads[u]).l)
  {
    hide Sound, Next, Holds, ActionOf, Known;
    var c: Choice :| true;
    assert Believes(s.threads[u], s.data);
    LockDiscipline(s.threads[u], s.data, c);
  }

  function After(cycle: seq<nat>, j: nat): nat
    requires j < |cycle|
  {
    if j + 1 < |cycle| then cycle[j + 1] else cycle[0]
  }

  ghost predicate WaitCycle(s: System, cycle: seq<nat>) {
    && |cycle| > 0
    && forall j: nat | j < |cycle| :: WaitsFor(s, cycle[j], After(cycle, j))
  }

  /** No cycle of threads each waiting for the next, of any length, in any state of any run. */
  lemma NoDeadlock(states: seq<System>, moves: seq<Move>, k: nat, cycle: seq<nat>)
    requires Run(states, moves) && k < |states|
    ensures !WaitCycle(states[k], cycle)
  {
    hide ActionOf, Holds, Sound, Step, Enabled, Initial, Agreed, Believes;
    var s := states[k];
    RunIsSafe(states, moves, k);
    if WaitCycle(s, cycle) {
      CycleClimbs(s, cycle, |cycle| - 1);
      assert WaitsFor(s, cycle[|cycle| - 1], After(cycle, |cycle| - 1));
      WaitingClimbs(s, cycle[|cycle| - 1], cycle[0]);
    }
  }

  lemma {:induction false} CycleClimbs(s: System, cycle: seq<nat>, j: nat)
    requires Invariant(s) && WaitCycle(s, cycle) && j < |cycle|
    ensures WaitsFor(s, cycle[0], After(cycle, 0)) && WaitsFor(s, cycle[j], After(cycle, j))
    ensures Rank(ActionOf(s.threads[cycle[0]]).l) <= Rank(ActionOf(s.threads[cycle[j]]).l)
  {
    hide ActionOf, Holds, Invariant, Rank;
    assert WaitsFor(s, cycle[0], After(cycle, 0));
    assert WaitsFor(s, cycle[j], After(cycle, j));
    if j > 0 {
      CycleClimbs(s, cycle, j - 1);
      WaitingClimbs(s, cycle[j - 1], cycle[j]);
    }
  }

  /** Behind every thread there is one that can move: itself, or the end of the chain of owners it
      waits for, which is at most three long because the ranks climb. */
  lemma {:induction false} SomeoneCanMove(s: System, t: nat) returns (u: nat)
    requires Invariant(s) && t < |s.threads|
    ensures Enabled(s, u)
    decreases if ActionOf(s.threads[t]).Take? then 3 - Rank(ActionOf(s.threads[t]).l) else 0
  {
    hide Sound, Holds, ActionOf;
    assert Believes(s.threads[t], s.data);
    var a := ActionOf(s.threads[t]);
    if a.Take? && a.l in s.owner {
      var v := s.owner[a.l];
      if ActionOf(s.threads[v]).Take? {
        WaitingClimbs(s, t, v);
        u := SomeoneCanMove(s, v);
      } else {
        assert Believes(s.threads[v], s.data);
        u := v;
      }
    } else {
      u := t;
    }
  }

  /** When setMode is past its loops, a stream it names is locked by it and not in standby. */
  lemma RevalidationIsSound(states: seq<System>, moves: seq<Move>, k: nat, t: nat,
                            m: AudioMode, out: Option<nat>, inp: Option<nat>)
    requires Run(states, moves) && k < |states| && t < |states[k].threads|
    requires states[k].threads[t] == Mode(MApply(m, out, inp))
    ensures out.Some? ==> && out.value < |states[k].data.outs|
                          && Out(out.value) in states[k].owner && states[k].owner[Out(out.value)] == t
                          && !states[k].data.outs[out.value].standby
    ensures inp.Some? ==> && inp.value < |states[k].data.ins|
                          && In(inp.value) in states[k].owner && states[k].owner[In(inp.value)] == t
                          && !states[k].data.ins[inp.value].standby
  {
    hide Run, Agreed, RestOut, Believes, Holds;
    RunIsSafe(states, moves, k);
    var s, th := states[k], states[k].threads[t];
    assert Believes(th, s.data);
    AppliedModeKnows(s.data, m, out, inp);
    assert forall l | l in Holds(th) :: l in s.owner && s.owner[l] == t;
  }

  lemma AppliedModeKnows(d: Data, m: AudioMode, out: Option<nat>, inp: Option<nat>)
    requires Believes(Mode(MApply(m, out, inp)), d)
    ensures out.Some? ==> Out(out.value) in Holds(Mode(MApply(m, out, inp)))
                          && out.value < |d.outs| && !d.outs[out.value].standby
    ensures inp.Some? ==> In(inp.value) in Holds(Mode(MApply(m, out, inp)))
                          && inp.value < |d.ins| && !d.ins[inp.value].standby
  {
  }

  /** The same for the input that write() closes and reopens around opening the output. */
  lemma WriterRevalidationIsSound(states: seq<System>, moves: seq<Move>, k: nat, t: nat, o: nat, inp: Option<nat>)
    requires Run(states, moves) && k < |states| && t < |states[k].threads|
    requires states[k].threads[t] == Write(WOpen(o, inp))
    ensures o < |states[k].data.outs| && states[k].data.outs[o].standby && states[k].data.outs[o].pcm.None?
    ensures inp.Some? ==> && inp.value < |states[k].data.ins|
                          && In(inp.value) in states[k].owner && states[k].owner[In(inp.value)] == t
                          && !states[k].data.ins[inp.value].standby
  {
    RunIsSafe(states, moves, k);
    assert Believes(states[k].threads[t], states[k].data);
    assert inp.Some? ==> In(inp.value) in Holds(states[k].threads[t]);
    assert Out(o) in Holds(states[k].threads[t]);
  }

  /** In every state of every run, whatever fails: a count is zero exactly when its handle is null,
      and the driver has seen opens and closes in turn. */
  lemma CountsMatchHandles(states: seq<System>, moves: seq<Move>, k: nat)
    requires Run(states, moves) && k < |states|
    ensures var h := states[k].data.handles;
            && (h.pcm.count == 0 <==> h.pcm.handle.None?)
            && (h.mixer.count == 0 <==> h.mixer.handle.None?)
            && Replay(h.pcm.log) == Some(h.pcm.handle)
            && Replay(h.mixer.log) == Some(h.mixer.handle)
  {
    RunIsSafe(states, moves, k);
  }
}
