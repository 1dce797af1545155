/** Conservation of the shared handles: every use is counted once and every stream's handle is live,
    in every run in which the opens made by setMode succeed and no input has two readers at once.
    Both provisos are needed; the last section says exactly how each one fails. */
module AudioConservation {
  import opened Options
  import opened AudioHandles
  import opened AudioProtocol
  import opened AudioSafety

  // ------------------------------------------------------------------- one shared handle, its users

  function Count(uses: seq<Option<nat>>): nat {
    if uses == [] then 0
    else Count(uses[..|uses| - 1]) + (if uses[|uses| - 1].Some? then 1 else 0)
  }

  /** The count is the number of streams that hold the handle, and `extra`; none of them holds another. */
  ghost predicate Fits(s: Shared, uses: seq<Option<nat>>, extra: nat) {
    && s.count == Count(uses) + extra
    && forall k | 0 <= k < |uses| && uses[k].Some? :: uses[k] == s.handle
  }

  lemma {:induction false} CountUpdate(uses: seq<Option<nat>>, k: nat, x: Option<nat>)
    requires k < |uses|
    ensures Count(uses[k := x]) + (if uses[k].Some? then 1 else 0) == Count(uses) + (if x.Some? then 1 else 0)
  {
    var n := |uses| - 1;
    if k == n {
      assert uses[k := x][..n] == uses[..n];
    } else {
      CountUpdate(uses[..n], k, x);
      assert uses[k := x][..n] == uses[..n][k := x];
    }
  }

  lemma {:induction false} CountJoin(a: seq<Option<nat>>, b: seq<Option<nat>>)
    ensures Count(a + b) == Count(a) + Count(b)
  {
    if b == [] {
      assert a + b == a;
    } else {
      var n := |b| - 1;
      assert (a + b)[..|a| + n] == a + b[..n];
      CountJoin(a, b[..n]);
    }
  }

  lemma {:induction false} CountPositive(uses: seq<Option<nat>>, k: nat)
    requires k < |uses| && uses[k].Some?
    ensures Count(uses) > 0
  {
    if k < |uses| - 1 {
      CountPositive(uses[..|uses| - 1], k);
    }
  }

  /** A stream without the handle opens it. */
  lemma FitsOpen(s: Shared, s': Shared, h: Option<nat>, uses: seq<Option<nat>>, k: nat, extra: nat, ok: bool)
    requires Sound(s) && Fits(s, uses, extra) && k < |uses| && uses[k].None?
    requires (s', h) == OpenPcm(s, ok) || (s', h) == OpenMixer(s, ok)
    ensures Fits(s', uses[k := h], extra)
  {
    OpenPcmSound(s, ok);
    OpenMixerSound(s, ok);
    CountUpdate(uses, k, h);
    var after := uses[k := h];
    forall j | 0 <= j < |after| && after[j].Some?
      ensures after[j] == s'.handle
    {
      if j != k {
        CountPositive(uses, j);
      }
    }
  }

  /** A stream that holds the handle gives it back. */
  lemma FitsClose(s: Shared, uses: seq<Option<nat>>, k: nat, extra: nat)
    requires Sound(s) && Fits(s, uses, extra) && k < |uses| && uses[k].Some?
    ensures Fits(CloseShared(s), uses[k := None], extra)
  {
    CloseSharedSound(s);
    CountUpdate(uses, k, None);
    CountPositive(uses, k);
    var after := uses[k := None];
    forall j | 0 <= j < |after| && after[j].Some?
      ensures after[j] == CloseShared(s).handle
    {
      CountPositive(after, j);
    }
  }

  /** Call mode takes a use that no stream holds. It fits exactly when the open handed out a handle. */
  lemma FitsCallOpen(s: Shared, s': Shared, h: Option<nat>, uses: seq<Option<nat>>, ok: bool)
    requires Sound(s) && Fits(s, uses, 0)
    requires (s', h) == OpenPcm(s, ok) || (s', h) == OpenMixer(s, ok)
    ensures Fits(s', uses, 1) <==> h.Some?
  {
    OpenPcmSound(s, ok);
    OpenMixerSound(s, ok);
    if h.Some? {
      forall j | 0 <= j < |uses| && uses[j].Some?
        ensures uses[j] == s'.handle
      {
        CountPositive(uses, j);
      }
    }
  }

  lemma FitsCallClose(s: Shared, uses: seq<Option<nat>>)
    requires Sound(s) && Fits(s, uses, 1)
    ensures Fits(CloseShared(s), uses, 0)
  {
    CloseSharedSound(s);
    forall j | 0 <= j < |uses| && uses[j].Some?
      ensures uses[j] == CloseShared(s).handle
    {
      CountPositive(uses, j);
    }
  }

  // ------------------------------------------------------------------------------ the whole state

  function Pcms(outs: seq<OutStream>): seq<Option<nat>> {
    seq(|outs|, k requires 0 <= k < |outs| => outs[k].pcm)
  }

  function OutMixers(outs: seq<OutStream>): seq<Option<nat>> {
    seq(|outs|, k requires 0 <= k < |outs| => outs[k].mixer)
  }

  function InMixers(ins: seq<InStream>): seq<Option<nat>> {
    seq(|ins|, k requires 0 <= k < |ins| => ins[k].mixer)
  }

  function Mixers(d: Data): seq<Option<nat>> {
    OutMixers(d.outs) + InMixers(d.ins)
  }

  /** mPcmOpenCnt = [outputs holding the PCM] + p, mMixerOpenCnt = [streams holding the mixer] + m,
      nobody holds a dead handle, and an input has as many capture handles open as it knows of. */
  ghost predicate BalancedWith(d: Data, p: nat, m: nat) {
    && Fits(d.handles.pcm, Pcms(d.outs), p)
    && Fits(d.handles.mixer, Mixers(d), m)
    && forall i | 0 <= i < |d.ins| :: d.ins[i].live == if d.ins[i].pcm then 1 else 0
  }

  function CallUse(inCall: bool): nat {
    if inCall then 1 else 0
  }

  ghost predicate Balanced(d: Data) {
    BalancedWith(d, CallUse(d.inCall), CallUse(d.inCall))
  }

  ghost predicate SoundHandles(d: Data) {
    Sound(d.handles.pcm) && Sound(d.handles.mixer)
  }

  lemma OutUpdate(d: Data, o: nat, r: (Handles, OutStream))
    requires o < |d.outs|
    ensures Pcms(WithOut(d, o, r).outs) == Pcms(d.outs)[o := r.1.pcm]
    ensures Mixers(WithOut(d, o, r)) == Mixers(d)[o := r.1.mixer]
    ensures Mixers(d)[o] == d.outs[o].mixer
  {
  }

  lemma InUpdate(d: Data, i: nat, r: (Handles, InStream))
    requires i < |d.ins|
    ensures Pcms(WithIn(d, i, r).outs) == Pcms(d.outs)
    ensures Mixers(WithIn(d, i, r)) == Mixers(d)[|d.outs| + i := r.1.mixer]
    ensures Mixers(d)[|d.outs| + i] == d.ins[i].mixer
  {
  }

  lemma OutCloseBalanced(d: Data, o: nat, p: nat, m: nat)
    requires SoundHandles(d) && BalancedWith(d, p, m) && o < |d.outs|
    ensures var e := WithOut(d, o, CloseOut(d.handles, d.outs[o])); SoundHandles(e) && BalancedWith(e, p, m)
    ensures var e := OutStandby(d, o); SoundHandles(e) && BalancedWith(e, p, m)
  {
    hide Sound, CloseShared;
    OutOpsSound(d.handles, d.outs[o], false, false);
    OutUpdate(d, o, CloseOut(d.handles, d.outs[o]));
    OutUpdate(d, o, StandbyOut(d.handles, d.outs[o]));
    if d.outs[o].pcm.Some? {
      FitsClose(d.handles.pcm, Pcms(d.outs), o, p);
    } else {
      assert Pcms(d.outs)[o := None] == Pcms(d.outs);
    }
    if d.outs[o].mixer.Some? {
      FitsClose(d.handles.mixer, Mixers(d), o, m);
    } else {
      assert Mixers(d)[o := None] == Mixers(d);
    }
  }

  lemma InCloseBalanced(d: Data, i: nat, p: nat, m: nat)
    requires SoundHandles(d) && BalancedWith(d, p, m) && i < |d.ins|
    ensures var e := WithIn(d, i, CloseIn(d.handles, d.ins[i])); SoundHandles(e) && BalancedWith(e, p, m)
    ensures var e := InStandby(d, i); SoundHandles(e) && BalancedWith(e, p, m)
  {
    hide Sound, CloseShared;
    InOpsSound(d.handles, d.ins[i], false, false);
    InUpdate(d, i, CloseIn(d.handles, d.ins[i]));
    InUpdate(d, i, StandbyIn(d.handles, d.ins[i]));
    if d.ins[i].mixer.Some? {
      FitsClose(d.handles.mixer, Mixers(d), |d.outs| + i, m);
    } else {
      assert Mixers(d)[|d.outs| + i := None] == Mixers(d);
    }
  }

  lemma OutOpenBalanced(d: Data, o: nat, c: Choice, p: nat, m: nat)
    requires SoundHandles(d) && BalancedWith(d, p, m) && o < |d.outs|
    requires d.outs[o].pcm.None? && d.outs[o].mixer.None?
    ensures var e := OutOpen(d, o, c); SoundHandles(e) && BalancedWith(e, p, m)
  {
    hide Sound, OpenPcm, OpenMixer;
    var r := OpenOut(d.handles, d.outs[o], c.ready, c.mixerOk);
    OutOpsSound(d.handles, d.outs[o], c.ready, c.mixerOk);
    OutUpdate(d, o, r);
    var (s', h) := OpenPcm(d.handles.pcm, c.ready);
    FitsOpen(d.handles.pcm, s', h, Pcms(d.outs), o, p, c.ready);
    if h.Some? {
      var (t', g) := OpenMixer(d.handles.mixer, c.mixerOk);
      FitsOpen(d.handles.mixer, t', g, Mixers(d), o, m, c.mixerOk);
    } else {
      assert Mixers(d)[o := None] == Mixers(d);
    }
  }

  lemma InOpenBalanced(d: Data, i: nat, c: Choice, p: nat, m: nat)
    requires SoundHandles(d) && BalancedWith(d, p, m) && i < |d.ins|
    requires !d.ins[i].pcm && d.ins[i].mixer.None?
    ensures var e := InOpen(d, i, c); SoundHandles(e) && BalancedWith(e, p, m)
  {
    hide Sound, OpenMixer;
    InOpsSound(d.handles, d.ins[i], c.inReady, c.inMixerOk);
    InUpdate(d, i, OpenIn(d.handles, d.ins[i], c.inReady, c.inMixerOk));
    var (t', g) := OpenMixer(d.handles.mixer, c.inMixerOk);
    if c.inReady {
      FitsOpen(d.handles.mixer, t', g, Mixers(d), |d.outs| + i, m, c.inMixerOk);
    } else {
      assert Mixers(d)[|d.outs| + i := None] == Mixers(d);
    }
  }

  /** Fields that do not count change nothing. */
  lemma MarkBalanced(d: Data, e: Data, p: nat, m: nat)
    requires BalancedWith(d, p, m)
    requires e.handles == d.handles && |e.outs| == |d.outs| && |e.ins| == |d.ins|
    requires forall o | 0 <= o < |d.outs| :: e.outs[o].pcm == d.outs[o].pcm && e.outs[o].mixer == d.outs[o].mixer
    requires forall i | 0 <= i < |d.ins| ::
               e.ins[i].pcm == d.ins[i].pcm && e.ins[i].mixer == d.ins[i].mixer && e.ins[i].live == d.ins[i].live
    ensures BalancedWith(e, p, m)
  {
    assert Pcms(e.outs) == Pcms(d.outs);
    assert Mixers(e) == Mixers(d);
  }

  lemma FitsInsert(s: Shared, a: seq<Option<nat>>, b: seq<Option<nat>>, extra: nat)
    requires Fits(s, a + b, extra)
    ensures Fits(s, a + [None] + b, extra)
  {
    CountJoin(a, b);
    CountJoin(a + [None], b);
    CountJoin(a, [None]);
    var u := a + [None] + b;
    forall k | 0 <= k < |u| && u[k].Some?
      ensures u[k] == s.handle
    {
      assert u[k] == (a + b)[if k < |a| then k else k - 1];
    }
  }

  /** A new stream holds nothing. */
  lemma ListBalanced(d: Data, j: ListJob, place: nat)
    requires Balanced(d)
    ensures Balanced(ListUpdate(d, j, place))
  {
    hide Count, Without;
    var e := ListUpdate(d, j, place);
    if j.OpenOutput? && d.output.None? {
      assert Pcms(d.outs) + [] == Pcms(d.outs);
      FitsInsert(d.handles.pcm, Pcms(d.outs), [], CallUse(d.inCall));
      FitsInsert(d.handles.mixer, OutMixers(d.outs), InMixers(d.ins), CallUse(d.inCall));
      assert Pcms(e.outs) == Pcms(d.outs) + [None] + [];
      assert Mixers(e) == OutMixers(d.outs) + [None] + InMixers(d.ins);
    } else if j.OpenInput? {
      assert Mixers(d) + [] == Mixers(d);
      FitsInsert(d.handles.mixer, Mixers(d), [], CallUse(d.inCall));
      assert Mixers(e) == Mixers(d) + [None] + [];
    }
  }

  /** The body of setMode, when it enters a call, keeps the balance exactly if both of its opens
      hand out a handle; every other body it can have keeps it. */
  lemma ApplyModeBalanced(d: Data, m: AudioMode, out: Option<nat>, inp: Option<nat>, c: Choice)
    requires SoundHandles(d) && Balanced(d)
    requires out.Some? ==> out.value < |d.outs|
    requires inp.Some? ==> inp.value < |d.ins|
    ensures Balanced(ApplyMode(d, m, out, inp, c)) <==> CallOpensSucceed(d, m, out, inp, c)
  {
    hide Sound, OpenPcm, OpenMixer, CloseShared, StandbyOut, StandbyIn, Fits;
    if c.flag && m == InCall && !d.inCall {
      EnterCallBalanced(d, out, inp, c);
    } else if c.flag && m == Normal && d.inCall {
      LeaveCallBalanced(d, out, inp, c);
    } else {
      var d' := ApplyMode(d, m, out, inp, c);
      assert d'.outs == d.outs && d'.ins == d.ins && d'.handles == d.handles && d'.inCall == d.inCall;
    }
  }

  lemma EnterCallBalanced(d: Data, out: Option<nat>, inp: Option<nat>, c: Choice)
    requires SoundHandles(d) && BalancedWith(d, 0, 0) && !d.inCall && c.flag
    requires out.Some? ==> out.value < |d.outs|
    requires inp.Some? ==> inp.value < |d.ins|
    ensures Balanced(ApplyMode(d, InCall, out, inp, c)) <==> CallOpensSucceed(d, InCall, out, inp, c)
  {
    hide Sound, OpenPcm, OpenMixer, StandbyOut, StandbyIn, Fits;
    var e, d' := Silenced(d, out, inp), ApplyMode(d, InCall, out, inp, c);
    SilencedBalanced(d, out, inp, 0, 0);
    var (s', h) := OpenPcm(e.handles.pcm, c.ready);
    var (t', g) := OpenMixer(e.handles.mixer, c.mixerOk);
    OpenPcmSound(e.handles.pcm, c.ready);
    OpenMixerSound(e.handles.mixer, c.mixerOk);
    FitsCallOpen(e.handles.pcm, s', h, Pcms(e.outs), c.ready);
    FitsCallOpen(e.handles.mixer, t', g, Mixers(e), c.mixerOk);
    assert d'.handles == Handles(s', t') && d'.outs == e.outs && d'.ins == e.ins && d'.inCall;
  }

  lemma LeaveCallBalanced(d: Data, out: Option<nat>, inp: Option<nat>, c: Choice)
    requires SoundHandles(d) && BalancedWith(d, 1, 1) && d.inCall && c.flag
    requires out.Some? ==> out.value < |d.outs|
    requires inp.Some? ==> inp.value < |d.ins|
    ensures Balanced(ApplyMode(d, Normal, out, inp, c))
  {
    hide Sound, CloseShared, StandbyOut, StandbyIn, Fits;
    var e := d.(handles := Handles(CloseShared(d.handles.pcm), CloseShared(d.handles.mixer)), inCall := false);
    FitsCallClose(d.handles.pcm, Pcms(d.outs));
    FitsCallClose(d.handles.mixer, Mixers(d));
    CloseSharedSound(d.handles.pcm);
    CloseSharedSound(d.handles.mixer);
    SilencedBalanced(e, out, inp, 0, 0);
    var d', f := ApplyMode(d, Normal, out, inp, c), Silenced(e, out, inp);
    assert d'.handles == f.handles && d'.outs == f.outs && d'.ins == f.ins && !d'.inCall;
  }

  /** Both locked streams sent to standby. */
  function Silenced(d: Data, out: Option<nat>, inp: Option<nat>): Data
    requires out.Some? ==> out.value < |d.outs|
    requires inp.Some? ==> inp.value < |d.ins|
  {
    var e := if out.Some? then OutStandby(d, out.value) else d;
    if inp.Some? then InStandby(e, inp.value) else e
  }

  /** setMode's two opens hand out a handle, if it makes them at all: once the streams it has locked are
      silent, each handle is still in use or the driver opens it. */
  ghost predicate CallOpensSucceed(d: Data, m: AudioMode, out: Option<nat>, inp: Option<nat>, c: Choice)
    requires out.Some? ==> out.value < |d.outs|
    requires inp.Some? ==> inp.value < |d.ins|
  {
    c.flag && m == InCall && !d.inCall ==>
      var h := Silenced(d, out, inp).handles;
      (h.pcm.count > 0 || c.ready) && (h.mixer.count > 0 || c.mixerOk)
  }

  lemma SilencedBalanced(d: Data, out: Option<nat>, inp: Option<nat>, p: nat, m: nat)
    requires SoundHandles(d) && BalancedWith(d, p, m)
    requires out.Some? ==> out.value < |d.outs|
    requires inp.Some? ==> inp.value < |d.ins|
    ensures var e := Silenced(d, out, inp); SoundHandles(e) && BalancedWith(e, p, m)
  {
    hide Sound, StandbyOut, StandbyIn, BalancedWith;
    var e := if out.Some? then OutStandby(d, out.value) else d;
    if out.Some? {
      OutCloseBalanced(d, out.value, p, m);
    }
    if inp.Some? {
      InCloseBalanced(e, inp.value, p, m);
    }
  }

  // -------------------------------------------------------------------------------- every run

  /** The input whose read() a thread is inside. */
  function ReadsFrom(th: Thread): Option<nat> {
    if th.Read? then Some(th.rp.i) else None
  }

  /** The input that a reader found in standby and is about to open; it lets go of its lock on the way. */
  function AsleepIn(th: Thread): Option<nat> {
    if th.Read? && !th.rp.REnter? && !th.rp.RTest? && !th.rp.RLeaveHw? && !th.rp.RCapture? && !th.rp.RLeave?
    then Some(th.rp.i) else None
  }

  /** The input that a writer has closed and is about to reopen. */
  function ClosedIn(th: Thread): Option<nat> {
    if th.Write? && th.wp.WOpen? then th.wp.inp else None
  }

  ghost predicate Careful(th: Thread, d: Data) {
    && (AsleepIn(th).Some? ==> AsleepIn(th).value < |d.ins| && d.ins[AsleepIn(th).value].standby)
    && (ClosedIn(th).Some? ==>
          var i := ClosedIn(th).value;
          i < |d.ins| && In(i) in Holds(th) && !d.ins[i].pcm && d.ins[i].mixer.None?)
  }

  ghost predicate OneReaderEach(s: System) {
    forall t: nat, u: nat | t < u < |s.threads| && ReadsFrom(s.threads[t]).Some? ::
      ReadsFrom(s.threads[t]) != ReadsFrom(s.threads[u])
  }

  /** What the two provisos ask of one step: no second reader starts on an input, and the opens that
      setMode makes on entering a call succeed. */
  ghost predicate Proviso(s: System, t: nat, c: Choice)
    requires Enabled(s, t)
  {
    match s.threads[t]
    case Idle => c.op.ReadFrom? ==> forall u: nat | u < |s.threads| :: ReadsFrom(s.threads[u]) != Some(c.op.i)
    case Mode(MApply(m, out, inp)) => CallOpensSucceed(s.data, m, out, inp, c)
    case _ => true
  }

  ghost predicate Conserved(s: System) {
    && OneReaderEach(s)
    && Balanced(s.data)
    && forall t: nat | t < |s.threads| :: Careful(s.threads[t], s.data)
  }

  /** Only read() takes an input out of standby, and only its own. */
  ghost predicate WakesOwn(th: Thread, d: Data, d': Data) {
    forall i: nat | i < |d.ins| && i < |d'.ins| && d.ins[i].standby && !d'.ins[i].standby :: ReadsFrom(th) == Some(i)
  }

  lemma StepWakesOwn(th: Thread, d: Data, c: Choice)
    requires CanStep(th, d)
    ensures WakesOwn(th, d, Next(th, d, c).0)
  {
    hide Sound, Active, ApplyMode, ListUpdate;
    match th
    case Idle =>
    case Mode(p) =>
      if p.MApply? {
        ApplyModeEffect(d, p.m, p.out, p.inp, c);
      }
    case Write(p) =>
    case Read(p) => ReadWakesOwn(p, d, c);
    case Side(p) =>
      if p.LBody? {
        ListEffect(d, p.lj, c.place);
      }
  }

  lemma ReadWakesOwn(p: ReadPc, d: Data, c: Choice)
    requires CanStep(Read(p), d)
    ensures WakesOwn(Read(p), d, ReadNext(p, d, c).0)
  {
    hide Sound, OutReopen, InOpen;
    if p.ROpen? {
      InOpenEffect(d, p.i, c);
    } else if p.RReopen? && !d.outs[p.o].standby {
      OutRecycleEffect(d, p.o, c);
    }
  }

  lemma WriteCareful(p: WritePc, d: Data, c: Choice)
    requires CanStep(Write(p), d)
    ensures var (d', th') := WriteNext(p, d, c); Careful(th', d')
  {
    hide Sound, Active;
  }

  lemma ReadCareful(p: ReadPc, d: Data, c: Choice)
    requires CanStep(Read(p), d) && Careful(Read(p), d)
    ensures var (d', th') := ReadNext(p, d, c); Careful(th', d')
  {
    hide Sound;
  }

  lemma StepCareful(th: Thread, d: Data, c: Choice)
    requires CanStep(th, d) && Careful(th, d)
    ensures var (d', th') := Next(th, d, c); Careful(th', d')
  {
    hide Sound, ModeNext, WriteNext, ReadNext, SideNext;
    match th
    case Idle =>
    case Mode(p) => SideStaysAway(th, d, c);
    case Write(p) => WriteCareful(p, d, c);
    case Read(p) => ReadCareful(p, d, c);
    case Side(p) => SideStaysAway(th, d, c);
  }

  lemma SideStaysAway(th: Thread, d: Data, c: Choice)
    requires CanStep(th, d) && (th.Mode? || th.Side?)
    ensures var th' := Next(th, d, c).1; !th'.Read? && !th'.Write?
  {
    hide Sound, Active;
  }

  lemma StepKeepsReader(th: Thread, d: Data, c: Choice)
    requires Known(th, d)
    ensures var th' := Next(th, d, c).1;
            ReadsFrom(th').Some? ==>
              ReadsFrom(th') == ReadsFrom(th) || (th.Idle? && c.op == ReadFrom(ReadsFrom(th').value))
  {
    hide Active;
  }

  lemma StepBalanced(s: System, t: nat, c: Choice)
    requires Invariant(s) && Conserved(s) && Enabled(s, t) && Proviso(s, t, c)
    ensures Balanced(Next(s.threads[t], s.data, c).0)
  {
    hide Sound, Fits, OpenPcm, OpenMixer, CloseShared, StandbyOut, StandbyIn, OpenOut, OpenIn, CloseOut, CloseIn,
         ListUpdate, ApplyMode, Exclusive, OneReaderEach;
    var d, u := s.data, CallUse(s.data.inCall);
    assert Believes(s.threads[t], d) && Careful(s.threads[t], d);
    match s.threads[t]
    case Idle =>
    case Mode(p) =>
      if p.MApply? {
        ApplyModeBalanced(d, p.m, p.out, p.inp, c);
      }
    case Write(p) => WriteBalanced(p, d, c);
    case Read(p) => ReadBalanced(p, d, c);
    case Side(p) => SideBalanced(p, d, c);
  }

  lemma WriteBalanced(p: WritePc, d: Data, c: Choice)
    requires Agreed(d) && Believes(Write(p), d) && Careful(Write(p), d) && Balanced(d)
    ensures Balanced(WriteNext(p, d, c).0)
  {
    hide Sound, Fits, Active, OpenOut, OpenIn, CloseOut, CloseIn, StandbyOut, StandbyIn;
    var u := CallUse(d.inCall);
    match p
    case WCheck(o, i, cnt) => InCloseBalanced(d, i, u, u);
    case WOpen(o, inp) =>
      OutOpenBalanced(d, o, c, u, u);
      if inp.Some? {
        var e := OutOpen(d, o, c);
        InOpenBalanced(e, inp.value, c, u, u);
        InCloseBalanced(InOpen(e, inp.value, c), inp.value, u, u);
      }
    case WWake(o) => MarkBalanced(d, WriteNext(p, d, c).0, u, u);
    case _ =>
  }

  lemma ReadBalanced(p: ReadPc, d: Data, c: Choice)
    requires Agreed(d) && Believes(Read(p), d) && Careful(Read(p), d) && Balanced(d)
    ensures Balanced(ReadNext(p, d, c).0)
  {
    hide Sound, Fits, OpenOut, OpenIn, StandbyOut, StandbyIn, CloseShared;
    var u := CallUse(d.inCall);
    match p
    case RReopen(i, o) =>
      OutCloseBalanced(d, o, u, u);
      var e := WithOut(d, o, CloseOut(d.handles, d.outs[o]));
      OutOpenBalanced(e, o, c, u, u);
      OutCloseBalanced(OutOpen(e, o, c), o, u, u);
    case ROpen(i) =>
      InOpenBalanced(d, i, c, u, u);
      MarkBalanced(InOpen(d, i, c), ReadNext(p, d, c).0, u, u);
    case _ =>
  }

  lemma SideBalanced(p: SidePc, d: Data, c: Choice)
    requires Agreed(d) && Known(Side(p), d) && Balanced(d)
    ensures Balanced(SideNext(p, d, c).0)
  {
    hide Sound, OpenMixer, CloseShared, StandbyOut, StandbyIn, ListUpdate, Active, Fits;
    var u := CallUse(d.inCall);
    match p
    case OBody(o, _) => OutCloseBalanced(d, o, u, u);
    case IBody(i, j) =>
      InCloseBalanced(d, i, u, u);
      BorrowMixer(d.handles.mixer, Mixers(d), u, c.mixerOk);
    case LBody(j) => ListBalanced(d, j, c.place);
    case _ =>
  }

  /** setParameters takes the mixer for a moment and gives it back, even when it could not be opened. */
  lemma BorrowMixer(s: Shared, uses: seq<Option<nat>>, extra: nat, ok: bool)
    requires Sound(s) && Fits(s, uses, extra)
    ensures Fits(CloseShared(OpenMixer(s, ok).0), uses, extra)
  {
    OpenMixerSound(s, ok);
    CloseSharedSound(OpenMixer(s, ok).0);
    forall k | 0 <= k < |uses| && uses[k].Some?
      ensures s.count > 0
    {
      CountPositive(uses, k);
    }
  }

  lemma StepKeepsConserved(s: System, t: nat, c: Choice)
    requires Invariant(s) && Conserved(s) && Enabled(s, t) && Proviso(s, t, c)
    ensures Conserved(Step(s, t, c))
  {
    hide Sound, Next, Holds, ActionOf, Balanced, Known;
    var th, s' := s.threads[t], Step(s, t, c);
    StepBalanced(s, t, c);
    assert CanStep(th, s.data) by {
      if ActionOf(th).Take? && ActionOf(th).l.Out? {
        TakenOutExists(th, s.data);
      }
    }
    AnyStep(th, s.data, c);
    StepCareful(th, s.data, c);
    StepWakesOwn(th, s.data, c);
    StepKeepsReader(th, s.data, c);
    forall v: nat | v < |s'.threads| && v != t
      ensures Careful(s'.threads[v], s'.data)
    {
      var tv := s.threads[v];
      assert Careful(tv, s.data);
      assert ReadsFrom(tv).Some? ==> ReadsFrom(tv) != ReadsFrom(th);
      assert forall l | l in Holds(th) :: s.owner[l] == t;
      assert forall l | l in Holds(tv) :: s.owner[l] == v;
      assert Holds(th) !! Holds(tv);
      OtherStaysCareful(s, t, c, tv);
    }
  }

  lemma OtherStaysCareful(s: System, t: nat, c: Choice, tv: Thread)
    requires t < |s.threads| && Known(s.threads[t], s.data) && Careful(tv, s.data)
    requires var (d', th') := Next(s.threads[t], s.data, c);
      Guarded(Holds(s.threads[t]), s.data, d') && WakesOwn(s.threads[t], s.data, d')
    requires Holds(s.threads[t]) !! Holds(tv)
    requires ReadsFrom(tv).Some? ==> ReadsFrom(tv) != ReadsFrom(s.threads[t])
    ensures Careful(tv, Next(s.threads[t], s.data, c).0)
  {
    hide Next, Holds, Known;
  }

  /** With the two provisos, in every state of every run: each counter is the number of streams that
      hold the handle plus one for a call, every stream's handle is the one the driver has open, and
      every input has opened exactly the capture handle it knows of. */
  lemma {:induction false} ReferencesAreConserved(states: seq<System>, moves: seq<Move>, k: nat)
    requires Run(states, moves) && k < |states|
    requires forall j | 0 <= j < k :: Proviso(states[j], moves[j].t, moves[j].c)
    ensures Conserved(states[k])
  {
    if k == 0 {
      var d := states[0].data;
      assert Pcms(d.outs) == [] && Mixers(d) == [];
    } else {
      ReferencesAreConserved(states, moves, k - 1);
      RunIsSafe(states, moves, k - 1);
      StepKeepsConserved(states[k - 1], moves[k - 1].t, moves[k - 1].c);
    }
  }

  // ----------------------------------------------------------------- how the provisos fail

  /** read() rechecks the output after it has let go of its own lock, but not its own standby flag.
      Opening the input keeps the balance exactly when the input still has nothing open. */
  lemma ReopenedInputBalance(i: nat, d: Data, c: Choice)
    requires Known(Read(ROpen(i)), d) && SoundHandles(d) && Balanced(d)
    ensures Balanced(ReadNext(ROpen(i), d, c).0) <==>
            !d.ins[i].pcm && (c.inReady ==> d.ins[i].mixer.None?)
  {
    hide Count;
    var u := CallUse(d.inCall);
    var e, d' := InOpen(d, i, c), ReadNext(ROpen(i), d, c).0;
    if d.ins[i].pcm {
      assert d'.ins[i].live == if c.inReady then 2 else 1;
    } else if c.inReady && d.ins[i].mixer.Some? {
      assert Mixers(d)[|d.outs| + i] == d.ins[i].mixer;
      MixerCountedTwice(d, d', i, u);
    } else if c.inReady {
      InOpenBalanced(d, i, c, u, u);
      MarkBalanced(e, d', u, u);
    } else {
      MarkBalanced(d, d', u, u);
    }
  }

  lemma MixerCountedTwice(d: Data, d': Data, i: nat, m: nat)
    requires Fits(d.handles.mixer, Mixers(d), m) && i < |d.ins| && d.ins[i].mixer.Some?
    requires |d'.outs| == |d.outs| && |d'.ins| == |d.ins|
    requires d'.outs == d.outs && d'.ins == d.ins[i := d'.ins[i]] && d'.ins[i].mixer == d.handles.mixer.handle
    requires d'.handles.mixer.count == d.handles.mixer.count + 1
    ensures !Fits(d'.handles.mixer, Mixers(d'), m)
  {
    assert Mixers(d)[|d.outs| + i] == d.ins[i].mixer;
    assert Mixers(d') == Mixers(d);
  }
}
