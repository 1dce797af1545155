/** The locking protocol of the audio HAL: any number of threads, each running the operations of the
    source one lock operation or one critical-section segment at a time. */
module AudioProtocol {
  import opened Options
  import opened AudioHandles

  /** Locks: one per output stream, one per input stream, and the one of AudioHardware. */
  datatype Lock = Out(o: nat) | In(i: nat) | Hw

  function Rank(l: Lock): nat {
    match l
    case Out(_) => 0
    case In(_) => 1
    case Hw => 2
  }

  datatype AudioMode = Normal | Ringtone | InCall | InCommunication

  /** Everything the locks protect. Streams are numbered in order of creation and never destroyed;
      `output` is mOutput and `inputs` is mInputs, in the order in which it is searched. */
  datatype Data = Data(handles: Handles, inCall: bool, mode: AudioMode,
                       output: Option<nat>, inputs: seq<nat>,
                       outs: seq<OutStream>, ins: seq<InStream>)

  const EMPTY := Data(Handles(CLOSED, CLOSED), false, Normal, None, [], [], [])

  /** Every stream that is mentioned exists. */
  ghost predicate InRange(d: Data) {
    && (d.output.Some? ==> d.output.value < |d.outs|)
    && forall k | 0 <= k < |d.inputs| :: d.inputs[k] < |d.ins|
  }

  /** getActiveInput_l: the first input of the list that is not in standby. */
  function ActiveInput(ins: seq<InStream>, inputs: seq<nat>): (r: Option<nat>)
    requires forall k | 0 <= k < |inputs| :: inputs[k] < |ins|
    ensures r.Some? ==> r.value < |ins| && r.value in inputs && !ins[r.value].standby
    ensures r.None? ==> forall k | 0 <= k < |inputs| :: ins[inputs[k]].standby
  {
    if inputs == [] then None
    else if !ins[inputs[0]].standby then Some(inputs[0])
    else ActiveInput(ins, inputs[1..])
  }

  function Active(d: Data): (r: Option<nat>)
    requires InRange(d)
    ensures r.Some? ==> r.value < |d.ins| && !d.ins[r.value].standby
  {
    ActiveInput(d.ins, d.inputs)
  }

  // --------------------------------------------------------- stream operations on the whole state

  function WithOut(d: Data, o: nat, r: (Handles, OutStream)): Data
    requires o < |d.outs|
  {
    d.(handles := r.0, outs := d.outs[o := r.1])
  }

  function WithIn(d: Data, i: nat, r: (Handles, InStream)): Data
    requires i < |d.ins|
  {
    d.(handles := r.0, ins := d.ins[i := r.1])
  }

  function OutStandby(d: Data, o: nat): Data
    requires o < |d.outs|
  {
    WithOut(d, o, StandbyOut(d.handles, d.outs[o]))
  }

  function InStandby(d: Data, i: nat): Data
    requires i < |d.ins|
  {
    WithIn(d, i, StandbyIn(d.handles, d.ins[i]))
  }

  function OutOpen(d: Data, o: nat, c: Choice): Data
    requires o < |d.outs|
  {
    WithOut(d, o, OpenOut(d.handles, d.outs[o], c.ready, c.mixerOk))
  }

  function InOpen(d: Data, i: nat, c: Choice): Data
    requires i < |d.ins|
  {
    WithIn(d, i, OpenIn(d.handles, d.ins[i], c.inReady, c.inMixerOk))
  }

  /** A stream that was active is opened again, and put to standby if that fails. */
  function OutReopen(d: Data, o: nat, c: Choice): Data
    requires o < |d.outs|
  {
    var e := OutOpen(d, o, c);
    if e.outs[o].pcm.Some? then e else OutStandby(e, o)
  }

  function InReopen(d: Data, i: nat, c: Choice): Data
    requires i < |d.ins|
  {
    var e := InOpen(d, i, c);
    if e.ins[i].pcm then e else InStandby(e, i)
  }

  /** The body of setMode, run with the hardware lock and the locks of both streams held. */
  function ApplyMode(d: Data, m: AudioMode, out: Option<nat>, inp: Option<nat>, c: Choice): Data
    requires out.Some? ==> out.value < |d.outs|
    requires inp.Some? ==> inp.value < |d.ins|
  {
    if !c.flag then d // refused by AudioHardwareBase::setMode
    else
      var s := SwitchCall(CallState(d.handles, d.inCall,
                                    if out.Some? then Some(d.outs[out.value]) else None,
                                    if inp.Some? then Some(d.ins[inp.value]) else None),
                          m == InCall, m == Normal, c.ready, c.mixerOk);
      Data(s.handles, s.inCall, m, d.output, d.inputs,
           if out.Some? && s.output.Some? then d.outs[out.value := s.output.value] else d.outs,
           if inp.Some? && s.input.Some? then d.ins[inp.value := s.input.value] else d.ins)
  }

  // --------------------------------------------------------------------------------- threads

  datatype OutJob = OStandby | ORoute
  datatype InJob = IStandby | ISource | IRoute
  datatype ListJob = OpenOutput | CloseOutput(o: nat) | OpenInput | CloseInput(i: nat)

  datatype Op =
    | SetMode(m: AudioMode)
    | SetMicMute
    | WriteTo(o: nat)
    | ReadFrom(i: nat)
    | OutOp(o: nat, oj: OutJob)
    | InOp(i: nat, ij: InJob)
    | ListOp(lj: ListJob)

  /** The answers of the outside world to one step: the next request, what the driver and the base
      class say, what a parameter string holds, where a sorted list puts a new element. */
  datatype Choice = Choice(op: Op, flag: bool, ready: bool, mixerOk: bool, inReady: bool, inMixerOk: bool,
                           place: nat)

  /** setMode. A name says what the thread is about to do; the arguments are its local variables. */
  datatype ModePc =
    | MEnter(m: AudioMode)
    | MOutScan(m: AudioMode)
    | MOutDrop(m: AudioMode, o: nat, cnt: nat)
    | MOutTake(m: AudioMode, o: nat, cnt: nat)
    | MOutRetake(m: AudioMode, o: nat, cnt: nat)
    | MOutCheck(m: AudioMode, o: nat, cnt: nat)
    | MOutUndo(m: AudioMode, o: nat)
    | MInScan(m: AudioMode, out: Option<nat>)
    | MInDrop(m: AudioMode, out: Option<nat>, i: nat, cnt: nat)
    | MInTake(m: AudioMode, out: Option<nat>, i: nat, cnt: nat)
    | MInRetake(m: AudioMode, out: Option<nat>, i: nat, cnt: nat)
    | MInCheck(m: AudioMode, out: Option<nat>, i: nat, cnt: nat)
    | MInUndo(m: AudioMode, out: Option<nat>, i: nat)
    | MApply(m: AudioMode, out: Option<nat>, inp: Option<nat>)
    | MFreeIn(out: Option<nat>, inp: Option<nat>)
    | MFreeOut(out: Option<nat>)
    | MLeave

  /** AudioStreamOutALSA::write on output o. */
  datatype WritePc =
    | WEnter(o: nat)
    | WTest(o: nat)
    | WTakeHw(o: nat)
    | WScan(o: nat)
    | WDrop(o: nat, i: nat, cnt: nat)
    | WTake(o: nat, i: nat, cnt: nat)
    | WRetake(o: nat, i: nat, cnt: nat)
    | WCheck(o: nat, i: nat, cnt: nat)
    | WUndo(o: nat, i: nat)
    | WOpen(o: nat, inp: Option<nat>)
    | WFreeIn(o: nat, inp: Option<nat>)
    | WWake(o: nat)
    | WLeaveHw(o: nat, awake: bool)
    | WPlay(o: nat)
    | WLeave(o: nat, ok: bool)

  /** AudioStreamInALSA::read on input i. */
  datatype ReadPc =
    | REnter(i: nat)
    | RTest(i: nat)
    | RTakeHw(i: nat)
    | RScan(i: nat)
    | RDropHw(i: nat, o: nat)
    | RDropIn(i: nat, o: nat)
    | RTakeOut(i: nat, o: nat)
    | RTakeIn(i: nat, o: nat)
    | RRetakeHw(i: nat, o: nat)
    | RCheck(i: nat, o: nat)
    | RUndo(i: nat, o: nat)
    | RReopen(i: nat, o: nat)
    | RFreeOut(i: nat, o: nat)
    | ROpen(i: nat)
    | RLeaveHw(i: nat, awake: bool)
    | RCapture(i: nat)
    | RLeave(i: nat, ok: bool)

  /** standby() and setParameters() on an output or an input stream, setMicMute(), and the opening
      and closing of streams. */
  datatype SidePc =
    | OEnter(o: nat, oj: OutJob)
    | OTest(o: nat, oj: OutJob)
    | OTakeHw(o: nat, oj: OutJob)
    | OBody(o: nat, oj: OutJob)
    | OLeaveHw(o: nat)
    | OLeave(o: nat)
    | IEnter(i: nat, ij: InJob)
    | ITest(i: nat, ij: InJob)
    | ITakeHw(i: nat, ij: InJob)
    | IBody(i: nat, ij: InJob)
    | ILeaveHw(i: nat, ij: InJob)
    | ILeave(i: nat)
    | UEnter
    | UPick
    | ULeave(inp: Option<nat>)
    | LEnter(lj: ListJob)
    | LBody(lj: ListJob)
    | LLeave

  datatype Thread = Idle | Mode(mp: ModePc) | Write(wp: WritePc) | Read(rp: ReadPc) | Side(sp: SidePc)

  datatype Action = Take(l: Lock) | Drop(l: Lock) | Local

  function OutLocks(out: Option<nat>): set<Lock> {
    if out.Some? then {Out(out.value)} else {}
  }

  function InLocks(inp: Option<nat>): set<Lock> {
    if inp.Some? then {In(inp.value)} else {}
  }

  function ModeHolds(p: ModePc): set<Lock> {
    match p
    case MEnter(_) => {}
    case MOutScan(_) => {Hw}
    case MOutDrop(_, _, _) => {Hw}
    case MOutTake(_, _, _) => {}
    case MOutRetake(_, o, _) => {Out(o)}
    case MOutCheck(_, o, _) => {Out(o), Hw}
    case MOutUndo(_, o) => {Out(o), Hw}
    case MInScan(_, out) => OutLocks(out) + {Hw}
    case MInDrop(_, out, _, _) => OutLocks(out) + {Hw}
    case MInTake(_, out, _, _) => OutLocks(out)
    case MInRetake(_, out, i, _) => OutLocks(out) + {In(i)}
    case MInCheck(_, out, i, _) => OutLocks(out) + {In(i), Hw}
    case MInUndo(_, out, i) => OutLocks(out) + {In(i), Hw}
    case MApply(_, out, inp) => OutLocks(out) + InLocks(inp) + {Hw}
    case MFreeIn(out, inp) => OutLocks(out) + InLocks(inp) + {Hw}
    case MFreeOut(out) => OutLocks(out) + {Hw}
    case MLeave => {Hw}
  }

  function WriteHolds(p: WritePc): set<Lock> {
    match p
    case WEnter(_) => {}
    case WTest(o) => {Out(o)}
    case WTakeHw(o) => {Out(o)}
    case WScan(o) => {Out(o), Hw}
    case WDrop(o, _, _) => {Out(o), Hw}
    case WTake(o, _, _) => {Out(o)}
    case WRetake(o, i, _) => {Out(o), In(i)}
    case WCheck(o, i, _) => {Out(o), In(i), Hw}
    case WUndo(o, i) => {Out(o), In(i), Hw}
    case WOpen(o, inp) => {Out(o), Hw} + InLocks(inp)
    case WFreeIn(o, inp) => {Out(o), Hw} + InLocks(inp)
    case WWake(o) => {Out(o), Hw}
    case WLeaveHw(o, _) => {Out(o), Hw}
    case WPlay(o) => {Out(o)}
    case WLeave(o, _) => {Out(o)}
  }

  function ReadHolds(p: ReadPc): set<Lock> {
    match p
    case REnter(_) => {}
    case RTest(i) => {In(i)}
    case RTakeHw(i) => {In(i)}
    case RScan(i) => {In(i), Hw}
    case RDropHw(i, _) => {In(i), Hw}
    case RDropIn(i, _) => {In(i)}
    case RTakeOut(_, _) => {}
    case RTakeIn(_, o) => {Out(o)}
    case RRetakeHw(i, o) => {Out(o), In(i)}
    case RCheck(i, o) => {Out(o), In(i), Hw}
    case RUndo(i, o) => {Out(o), In(i), Hw}
    case RReopen(i, o) => {Out(o), In(i), Hw}
    case RFreeOut(i, o) => {Out(o), In(i), Hw}
    case ROpen(i) => {In(i), Hw}
    case RLeaveHw(i, _) => {In(i), Hw}
    case RCapture(i) => {In(i)}
    case RLeave(i, _) => {In(i)}
  }

  function SideHolds(p: SidePc): set<Lock> {
    match p
    case OEnter(_, _) => {}
    case OTest(o, _) => {Out(o)}
    case OTakeHw(o, _) => {Out(o)}
    case OBody(o, _) => {Out(o), Hw}
    case OLeaveHw(o) => {Out(o), Hw}
    case OLeave(o) => {Out(o)}
    case IEnter(_, _) => {}
    case ITest(i, _) => {In(i)}
    case ITakeHw(i, _) => {In(i)}
    case IBody(i, _) => {In(i), Hw}
    case ILeaveHw(i, _) => {In(i), Hw}
    case ILeave(i) => {In(i)}
    case UEnter => {}
    case UPick => {Hw}
    case ULeave(_) => {Hw}
    case LEnter(_) => {}
    case LBody(_) => {Hw}
    case LLeave => {Hw}
  }

  /** The locks a thread holds at each point of its program. */
  function Holds(th: Thread): set<Lock> {
    match th
    case Idle => {}
    case Mode(p) => ModeHolds(p)
    case Write(p) => WriteHolds(p)
    case Read(p) => ReadHolds(p)
    case Side(p) => SideHolds(p)
  }

  function ModeAction(p: ModePc): Action {
    match p
    case MEnter(_) => Take(Hw)
    case MOutDrop(_, _, _) => Drop(Hw)
    case MOutTake(_, o, _) => Take(Out(o))
    case MOutRetake(_, _, _) => Take(Hw)
    case MOutUndo(_, o) => Drop(Out(o))
    case MInDrop(_, _, _, _) => Drop(Hw)
    case MInTake(_, _, i, _) => Take(In(i))
    case MInRetake(_, _, _, _) => Take(Hw)
    case MInUndo(_, _, i) => Drop(In(i))
    case MFreeIn(_, inp) => if inp.Some? then Drop(In(inp.value)) else Local
    case MFreeOut(out) => if out.Some? then Drop(Out(out.value)) else Local
    case MLeave => Drop(Hw)
    case _ => Local
  }

  function WriteAction(p: WritePc): Action {
    match p
    case WEnter(o) => Take(Out(o))
    case WTakeHw(_) => Take(Hw)
    case WDrop(_, _, _) => Drop(Hw)
    case WTake(_, i, _) => Take(In(i))
    case WRetake(_, _, _) => Take(Hw)
    case WUndo(_, i) => Drop(In(i))
    case WFreeIn(_, inp) => if inp.Some? then Drop(In(inp.value)) else Local
    case WLeaveHw(_, _) => Drop(Hw)
    case WLeave(o, _) => Drop(Out(o))
    case _ => Local
  }

  function ReadAction(p: ReadPc): Action {
    match p
    case REnter(i) => Take(In(i))
    case RTakeHw(_) => Take(Hw)
    case RDropHw(_, _) => Drop(Hw)
    case RDropIn(i, _) => Drop(In(i))
    case RTakeOut(_, o) => Take(Out(o))
    case RTakeIn(i, _) => Take(In(i))
    case RRetakeHw(_, _) => Take(Hw)
    case RUndo(_, o) => Drop(Out(o))
    case RFreeOut(_, o) => Drop(Out(o))
    case RLeaveHw(_, _) => Drop(Hw)
    case RLeave(i, _) => Drop(In(i))
    case _ => Local
  }

  function SideAction(p: SidePc): Action {
    match p
    case OEnter(o, _) => Take(Out(o))
    case OTakeHw(_, _) => Take(Hw)
    case OLeaveHw(_) => Drop(Hw)
    case OLeave(o) => Drop(Out(o))
    case IEnter(i, _) => Take(In(i))
    case ITakeHw(_, _) => Take(Hw)
    case ILeaveHw(_, _) => Drop(Hw)
    case ILeave(i) => Drop(In(i))
    case UEnter => Take(Hw)
    case ULeave(_) => Drop(Hw)
    case LEnter(_) => Take(Hw)
    case LLeave => Drop(Hw)
    case _ => Local
  }

  function ActionOf(th: Thread): Action {
    match th
    case Idle => Local
    case Mode(p) => ModeAction(p)
    case Write(p) => WriteAction(p)
    case Read(p) => ReadAction(p)
    case Side(p) => SideAction(p)
  }

  // -------------------------------------------------------------------------- one step of a thread

  /** Streams a thread has in its hands exist. */
  ghost predicate Known(th: Thread, d: Data) {
    && InRange(d)
    && (OutId(th).Some? ==> OutId(th).value < |d.outs|)
    && (InId(th).Some? ==> InId(th).value < |d.ins|)
  }

  /** The output stream a thread has in its local variables. */
  function OutId(th: Thread): Option<nat> {
    match th
    case Idle => None
    case Mode(p) => (
      match p
      case MOutDrop(_, o, _) => Some(o)
      case MOutTake(_, o, _) => Some(o)
      case MOutRetake(_, o, _) => Some(o)
      case MOutCheck(_, o, _) => Some(o)
      case MOutUndo(_, o) => Some(o)
      case MInScan(_, out) => out
      case MInDrop(_, out, _, _) => out
      case MInTake(_, out, _, _) => out
      case MInRetake(_, out, _, _) => out
      case MInCheck(_, out, _, _) => out
      case MInUndo(_, out, _) => out
      case MApply(_, out, _) => out
      case MFreeIn(out, _) => out
      case MFreeOut(out) => out
      case _ => None)
    case Write(p) => Some(p.o)
    case Read(p) => (
      match p
      case RDropHw(_, o) => Some(o)
      case RDropIn(_, o) => Some(o)
      case RTakeOut(_, o) => Some(o)
      case RTakeIn(_, o) => Some(o)
      case RRetakeHw(_, o) => Some(o)
      case RCheck(_, o) => Some(o)
      case RUndo(_, o) => Some(o)
      case RReopen(_, o) => Some(o)
      case RFreeOut(_, o) => Some(o)
      case _ => None)
    case Side(p) => (
      match p
      case OEnter(o, _) => Some(o)
      case OTest(o, _) => Some(o)
      case OTakeHw(o, _) => Some(o)
      case OBody(o, _) => Some(o)
      case OLeaveHw(o) => Some(o)
      case OLeave(o) => Some(o)
      case _ => None)
  }

  /** The input stream a thread has in its local variables. */
  function InId(th: Thread): Option<nat> {
    match th
    case Idle => None
    case Mode(p) => (
      match p
      case MInDrop(_, _, i, _) => Some(i)
      case MInTake(_, _, i, _) => Some(i)
      case MInRetake(_, _, i, _) => Some(i)
      case MInCheck(_, _, i, _) => Some(i)
      case MInUndo(_, _, i) => Some(i)
      case MApply(_, _, inp) => inp
      case MFreeIn(_, inp) => inp
      case _ => None)
    case Write(p) => (
      match p
      case WDrop(_, i, _) => Some(i)
      case WTake(_, i, _) => Some(i)
      case WRetake(_, i, _) => Some(i)
      case WCheck(_, i, _) => Some(i)
      case WUndo(_, i) => Some(i)
      case WOpen(_, inp) => inp
      case WFreeIn(_, inp) => inp
      case _ => None)
    case Read(p) => Some(p.i)
    case Side(p) => (
      match p
      case IEnter(i, _) => Some(i)
      case ITest(i, _) => Some(i)
      case ITakeHw(i, _) => Some(i)
      case IBody(i, _) => Some(i)
      case ILeaveHw(i, _) => Some(i)
      case ILeave(i) => Some(i)
      case ULeave(inp) => inp
      case _ => None)
  }

  function ModeNext(p: ModePc, d: Data, c: Choice): (Data, Thread)
    requires Known(Mode(p), d)
  {
    match p
    case MEnter(m) => (d, Mode(MOutScan(m)))
    case MOutScan(m) =>
      if d.output.Some? && !d.outs[d.output.value].standby
      then (d, Mode(MOutDrop(m, d.output.value, d.outs[d.output.value].standbyCnt)))
      else (d, Mode(MInScan(m, None)))
    case MOutDrop(m, o, cnt) => (d, Mode(MOutTake(m, o, cnt)))
    case MOutTake(m, o, cnt) => (d, Mode(MOutRetake(m, o, cnt)))
    case MOutRetake(m, o, cnt) => (d, Mode(MOutCheck(m, o, cnt)))
    case MOutCheck(m, o, cnt) =>
      if d.output == Some(o) && cnt == d.outs[o].standbyCnt
      then (d, Mode(MInScan(m, Some(o))))
      else (d, Mode(MOutUndo(m, o)))
    case MOutUndo(m, o) => (d, Mode(MOutScan(m)))
    case MInScan(m, out) =>
      var a := Active(d);
      if a.Some? then (d, Mode(MInDrop(m, out, a.value, d.ins[a.value].standbyCnt)))
      else (d, Mode(MApply(m, out, None)))
    case MInDrop(m, out, i, cnt) => (d, Mode(MInTake(m, out, i, cnt)))
    case MInTake(m, out, i, cnt) => (d, Mode(MInRetake(m, out, i, cnt)))
    case MInRetake(m, out, i, cnt) => (d, Mode(MInCheck(m, out, i, cnt)))
    case MInCheck(m, out, i, cnt) =>
      if Active(d) == Some(i) && cnt == d.ins[i].standbyCnt
      then (d, Mode(MApply(m, out, Some(i))))
      else (d, Mode(MInUndo(m, out, i)))
    case MInUndo(m, out, i) => (d, Mode(MInScan(m, out)))
    case MApply(m, out, inp) => (ApplyMode(d, m, out, inp, c), Mode(MFreeIn(out, inp)))
    case MFreeIn(out, inp) => (d, Mode(MFreeOut(out)))
    case MFreeOut(out) => (d, Mode(MLeave))
    case MLeave => (d, Idle)
  }

  function WriteNext(p: WritePc, d: Data, c: Choice): (Data, Thread)
    requires Known(Write(p), d)
  {
    match p
    case WEnter(o) => (d, Write(WTest(o)))
    case WTest(o) => (d, Write(if d.outs[o].standby then WTakeHw(o) else WPlay(o)))
    case WTakeHw(o) => (d, Write(WScan(o)))
    case WScan(o) =>
      var a := Active(d);
      if a.Some? then (d, Write(WDrop(o, a.value, d.ins[a.value].standbyCnt)))
      else (d, Write(WOpen(o, None)))
    case WDrop(o, i, cnt) => (d, Write(WTake(o, i, cnt)))
    case WTake(o, i, cnt) => (d, Write(WRetake(o, i, cnt)))
    case WRetake(o, i, cnt) => (d, Write(WCheck(o, i, cnt)))
    case WCheck(o, i, cnt) =>
      if Active(d) == Some(i) && cnt == d.ins[i].standbyCnt
      then (WithIn(d, i, CloseIn(d.handles, d.ins[i])), Write(WOpen(o, Some(i))))
      else (d, Write(WUndo(o, i)))
    case WUndo(o, i) => (d, Write(WScan(o)))
    case WOpen(o, inp) =>
      var e := OutOpen(d, o, c);
      (if inp.Some? then InReopen(e, inp.value, c) else e, Write(WFreeIn(o, inp)))
    case WFreeIn(o, inp) => (d, Write(WWake(o)))
    case WWake(o) =>
      if d.outs[o].pcm.None? then (d, Write(WLeaveHw(o, false)))
      else (d.(outs := d.outs[o := d.outs[o].(standby := false)]), Write(WLeaveHw(o, true)))
    case WLeaveHw(o, awake) => (d, Write(if awake then WPlay(o) else WLeave(o, false)))
    case WPlay(o) => (d, Write(WLeave(o, c.flag)))
    case WLeave(o, ok) => (d, if ok then Idle else Side(OEnter(o, OStandby)))
  }

  function ReadNext(p: ReadPc, d: Data, c: Choice): (Data, Thread)
    requires Known(Read(p), d)
  {
    match p
    case REnter(i) => (d, Read(RTest(i)))
    case RTest(i) => (d, Read(if d.ins[i].standby then RTakeHw(i) else RCapture(i)))
    case RTakeHw(i) => (d, Read(RScan(i)))
    case RScan(i) => (d, Read(if d.output.Some? then RDropHw(i, d.output.value) else ROpen(i)))
    case RDropHw(i, o) => (d, Read(RDropIn(i, o)))
    case RDropIn(i, o) => (d, Read(RTakeOut(i, o)))
    case RTakeOut(i, o) => (d, Read(RTakeIn(i, o)))
    case RTakeIn(i, o) => (d, Read(RRetakeHw(i, o)))
    case RRetakeHw(i, o) => (d, Read(RCheck(i, o)))
    case RCheck(i, o) => (d, Read(if d.output == Some(o) then RReopen(i, o) else RUndo(i, o)))
    case RUndo(i, o) => (d, Read(RScan(i)))
    case RReopen(i, o) =>
      (if d.outs[o].standby then d
       else OutReopen(WithOut(d, o, CloseOut(d.handles, d.outs[o])), o, c),
       Read(RFreeOut(i, o)))
    case RFreeOut(i, o) => (d, Read(ROpen(i)))
    case ROpen(i) =>
      var e := InOpen(d, i, c);
      if !e.ins[i].pcm then (e, Read(RLeaveHw(i, false)))
      else (e.(ins := e.ins[i := e.ins[i].(standby := false)]), Read(RLeaveHw(i, true)))
    case RLeaveHw(i, awake) => (d, Read(if awake then RCapture(i) else RLeave(i, false)))
    case RCapture(i) => (d, Read(RLeave(i, c.flag)))
    case RLeave(i, ok) => (d, if ok then Idle else Side(IEnter(i, IStandby)))
  }

  function ListUpdate(d: Data, j: ListJob, place: nat): Data {
    match j
    case OpenOutput =>
      if d.output.Some? then d else d.(output := Some(|d.outs|), outs := d.outs + [NEW_OUT])
    case CloseOutput(o) => if d.output == Some(o) then d.(output := None) else d
    case OpenInput =>
      var k := if place <= |d.inputs| then place else |d.inputs|;
      d.(inputs := d.inputs[..k] + [|d.ins|] + d.inputs[k..], ins := d.ins + [NEW_IN])
    case CloseInput(i) => d.(inputs := Without(d.inputs, i))
  }

  function Without(s: seq<nat>, i: nat): (r: seq<nat>)
    ensures forall x | x in r :: x in s
  {
    if s == [] then [] else if s[0] == i then s[1..] else [s[0]] + Without(s[1..], i)
  }

  function SideNext(p: SidePc, d: Data, c: Choice): (Data, Thread)
    requires Known(Side(p), d)
  {
    match p
    case OEnter(o, j) => (d, Side(OTest(o, j)))
    case OTest(o, j) => (d, Side(if j == OStandby || c.flag then OTakeHw(o, j) else OLeave(o)))
    case OTakeHw(o, j) => (d, Side(OBody(o, j)))
    case OBody(o, j) =>
      (if j == OStandby || (c.flag && d.mode != InCall) then OutStandby(d, o) else d, Side(OLeaveHw(o)))
    case OLeaveHw(o) => (d, Side(OLeave(o)))
    case OLeave(o) => (d, Idle)
    case IEnter(i, j) => (d, Side(ITest(i, j)))
    case ITest(i, j) =>
      (d, Side(if j == IStandby || c.flag then ITakeHw(i, j)
               else if j == ISource then ITest(i, IRoute) else ILeave(i)))
    case ITakeHw(i, j) => (d, Side(IBody(i, j)))
    case IBody(i, j) =>
      (match j
       case IStandby => InStandby(d, i)
       case IRoute => if c.flag && d.mode != InCall then InStandby(d, i) else d
       case ISource =>
         d.(handles := d.handles.(mixer := CloseShared(OpenMixer(d.handles.mixer, c.mixerOk).0))),
       Side(ILeaveHw(i, j)))
    case ILeaveHw(i, j) => (d, Side(if j == ISource then ITest(i, IRoute) else ILeave(i)))
    case ILeave(i) => (d, Idle)
    case UEnter => (d, Side(UPick))
    case UPick => (d, Side(ULeave(if c.flag && d.mode != InCall then Active(d) else None)))
    case ULeave(inp) => (d, if inp.Some? then Side(IEnter(inp.value, IStandby)) else Idle)
    case LEnter(j) => (d, Side(LBody(j)))
    case LBody(j) => (ListUpdate(d, j, c.place), Side(LLeave))
    case LLeave => (d, Idle)
  }

  /** An idle thread takes up any request on a stream that exists. */
  function Start(d: Data, op: Op): Thread {
    match op
    case SetMode(m) => Mode(MEnter(m))
    case SetMicMute => Side(UEnter)
    case WriteTo(o) => if o < |d.outs| then Write(WEnter(o)) else Idle
    case ReadFrom(i) => if i < |d.ins| then Read(REnter(i)) else Idle
    case OutOp(o, j) => if o < |d.outs| then Side(OEnter(o, j)) else Idle
    case InOp(i, j) => if i < |d.ins| then Side(IEnter(i, j)) else Idle
    case ListOp(j) => Side(LEnter(j))
  }

  function Next(th: Thread, d: Data, c: Choice): (Data, Thread)
    requires Known(th, d)
  {
    match th
    case Idle => (d, Start(d, c.op))
    case Mode(p) => ModeNext(p, d, c)
    case Write(p) => WriteNext(p, d, c)
    case Read(p) => ReadNext(p, d, c)
    case Side(p) => SideNext(p, d, c)
  }

  // ---------------------------------------------------------------------------- the whole system

  /** `owner` is the state of the mutexes themselves. */
  datatype System = System(data: Data, owner: map<Lock, nat>, threads: seq<Thread>)

  ghost predicate Initial(s: System) {
    s.data == EMPTY && s.owner == map[] && forall t | 0 <= t < |s.threads| :: s.threads[t] == Idle
  }

  /** A thread may step unless it is about to take a mutex that someone holds. */
  ghost predicate Enabled(s: System, t: nat) {
    && t < |s.threads|
    && Known(s.threads[t], s.data)
    && (ActionOf(s.threads[t]).Take? ==> ActionOf(s.threads[t]).l !in s.owner)
  }

  function OwnerAfter(owner: map<Lock, nat>, t: nat, a: Action): map<Lock, nat> {
    match a
    case Take(l) => owner[l := t]
    case Drop(l) => owner - {l}
    case Local => owner
  }

  function Step(s: System, t: nat, c: Choice): System
    requires Enabled(s, t)
  {
    var (d, th) := Next(s.threads[t], s.data, c);
    System(d, OwnerAfter(s.owner, t, ActionOf(s.threads[t])), s.threads[t := th])
  }

  datatype Move = Move(t: nat, c: Choice)

  /** A run: any interleaving of any number of threads, with any answers from outside. */
  ghost predicate Run(states: seq<System>, moves: seq<Move>) {
    && |states| == |moves| + 1
    && Initial(states[0])
    && forall k | 0 <= k < |moves| ::
      Enabled(states[k], moves[k].t) && states[k + 1] == Step(states[k], moves[k].t, moves[k].c)
  }
}
