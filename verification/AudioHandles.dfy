/** Values and classes for the reference-counted driver handles of the audio HAL.

    Every operation of the source that changes a counter or a handle is written twice: as a
    function on values, which the thread protocol in AudioProtocol.dfy is built from, and as a
    method of a class with the source's own fields, proved to compute that function. */
module Options {
  datatype Option<+T> = None | Some(value: T)
}

module AudioHandles {
  import opened Options

  /** What the driver sees. Handles are numbered in the order in which the driver hands them out. */
  datatype DriverOp = Opened(h: nat) | Closed(h: nat)

  /** One shared handle (mPcm with mPcmOpenCnt, or mMixer with mMixerOpenCnt) and its driver trace. */
  datatype Shared = Shared(handle: Option<nat>, count: nat, serial: nat, log: seq<DriverOp>)

  const CLOSED := Shared(None, 0, 0, [])

  /** Replays a driver trace: None when an open or a close comes out of turn,
      otherwise the handle left open at the end. */
  ghost function Replay(log: seq<DriverOp>): Option<Option<nat>> {
    if log == [] then Some(None)
    else
      match (Replay(log[..|log| - 1]), log[|log| - 1])
      case (Some(None), Opened(h)) => Some(Some(h))
      case (Some(Some(g)), Closed(h)) => if g == h then Some(None) else None
      case _ => None
  }

  /** The count is zero exactly when the handle is null, opens and closes alternate and agree
      with the handle, and no handle number is ever used again. */
  ghost predicate Sound(s: Shared) {
    && (s.count == 0 <==> s.handle.None?)
    && Replay(s.log) == Some(s.handle)
    && forall k | 0 <= k < |s.log| :: s.log[k].h < s.serial
  }

  function OpenPcm(s: Shared, ready: bool): (Shared, Option<nat>) {
    if s.count != 0 then (s.(count := s.count + 1), s.handle)
    else if s.handle.Some? then (s, None)
    else if ready then
      (Shared(Some(s.serial), 1, s.serial + 1, s.log + [Opened(s.serial)]), Some(s.serial))
    else
      // pcm_open always returns an object; one that is not ready is closed again
      (s.(serial := s.serial + 1, log := s.log + [Opened(s.serial), Closed(s.serial)]), None)
  }

  function OpenMixer(s: Shared, ok: bool): (Shared, Option<nat>) {
    if s.count != 0 then (s.(count := s.count + 1), s.handle)
    else if s.handle.Some? || !ok then (s, None)
    else
      (Shared(Some(s.serial), 1, s.serial + 1, s.log + [Opened(s.serial)]), Some(s.serial))
  }

  function CloseShared(s: Shared): Shared {
    if s.count == 0 then s
    else if s.count > 1 then s.(count := s.count - 1)
    else
      s.(handle := None, count := 0,
         log := if s.handle.Some? then s.log + [Closed(s.handle.value)] else s.log)
  }

  lemma ReplayPush(log: seq<DriverOp>, op: DriverOp)
    ensures Replay(log + [op]) ==
            match (Replay(log), op)
            case (Some(None), Opened(h)) => Some(Some(h))
            case (Some(Some(g)), Closed(h)) => if g == h then Some(None) else None
            case _ => None
  {
    assert (log + [op])[..|log|] == log;
  }

  /** openPcmOut_l counts a use exactly when it hands out a handle, and that handle is the live one. */
  lemma OpenPcmSound(s: Shared, ready: bool)
    requires Sound(s)
    ensures var (s', h) := OpenPcm(s, ready);
            && Sound(s')
            && s'.count == s.count + (if h.Some? then 1 else 0)
            && h == s'.handle
            && (h.Some? <==> s.count > 0 || ready)
            && (s.count > 0 ==> s'.handle == s.handle)
  {
    ReplayPush(s.log, Opened(s.serial));
    ReplayPush(s.log + [Opened(s.serial)], Closed(s.serial));
    assert s.log + [Opened(s.serial), Closed(s.serial)] == s.log + [Opened(s.serial)] + [Closed(s.serial)];
  }

  lemma OpenMixerSound(s: Shared, ok: bool)
    requires Sound(s)
    ensures var (s', h) := OpenMixer(s, ok);
            && Sound(s')
            && s'.count == s.count + (if h.Some? then 1 else 0)
            && h == s'.handle
            && (h.Some? <==> s.count > 0 || ok)
            && (s.count > 0 ==> s'.handle == s.handle)
  {
    ReplayPush(s.log, Opened(s.serial));
  }

  lemma CloseSharedSound(s: Shared)
    requires Sound(s)
    ensures var s' := CloseShared(s);
            && Sound(s')
            && s'.count == (if s.count == 0 then 0 else s.count - 1)
            && (s'.count > 0 ==> s'.handle == s.handle)
  {
    if s.handle.Some? {
      ReplayPush(s.log, Closed(s.handle.value));
      assert s.log != [];
      var last := s.log[|s.log| - 1];
      assert last == Opened(s.handle.value);
    }
  }

  /** What is done with a shared handle. */
  datatype Use = TakePcm(ready: bool) | TakeMixer(ok: bool) | GiveBack

  function AfterUse(s: Shared, u: Use): Shared {
    match u
    case TakePcm(ready) => OpenPcm(s, ready).0
    case TakeMixer(ok) => OpenMixer(s, ok).0
    case GiveBack => CloseShared(s)
  }

  function AfterUses(s: Shared, us: seq<Use>): Shared {
    if us == [] then s else AfterUse(AfterUses(s, us[..|us| - 1]), us[|us| - 1])
  }

  /** The h-th object the driver opened has been closed, and is not the one in use. */
  ghost predicate Dead(s: Shared, h: nat) {
    h < s.serial && s.handle != Some(h)
  }

  lemma UseKeepsDead(s: Shared, u: Use, h: nat)
    requires Sound(s) && Dead(s, h)
    ensures Sound(AfterUse(s, u)) && Dead(AfterUse(s, u), h)
  {
    match u
    case TakePcm(ready) => OpenPcmSound(s, ready);
    case TakeMixer(ok) => OpenMixerSound(s, ok);
    case GiveBack => CloseSharedSound(s);
  }

  /** However a shared handle is used from the last close on, what was closed is not handed out again: every
      open makes an object of its own, and a stream that kept the old one holds a dead handle. */
  lemma {:induction false} ClosedStaysDead(s: Shared, us: seq<Use>)
    requires Sound(s) && s.count == 1
    ensures var r := AfterUses(CloseShared(s), us); Sound(r) && Dead(r, s.handle.value)
  {
    CloseSharedSound(s);
    assert s.log != [] && s.log[|s.log| - 1] == Opened(s.handle.value);
    if us != [] {
      ClosedStaysDead(s, us[..|us| - 1]);
      hide Sound, Dead, AfterUse;
      UseKeepsDead(AfterUses(CloseShared(s), us[..|us| - 1]), us[|us| - 1], s.handle.value);
    }
  }

  // ------------------------------------------------------------------------- streams

  datatype Handles = Handles(pcm: Shared, mixer: Shared)

  datatype OutStream = OutStream(standby: bool, standbyCnt: nat, pcm: Option<nat>, mixer: Option<nat>)

  /** An input opens a driver handle of its own; `live` counts those opened and not yet closed. */
  datatype InStream = InStream(standby: bool, standbyCnt: nat, pcm: bool, live: nat, mixer: Option<nat>)

  const NEW_OUT := OutStream(true, 0, None, None)
  const NEW_IN := InStream(true, 0, false, 0, None)

  function CloseOut(h: Handles, s: OutStream): (Handles, OutStream) {
    (Handles(if s.pcm.Some? then CloseShared(h.pcm) else h.pcm,
             if s.mixer.Some? then CloseShared(h.mixer) else h.mixer),
     s.(pcm := None, mixer := None))
  }

  function OpenOut(h: Handles, s: OutStream, ready: bool, mixerOk: bool): (Handles, OutStream) {
    var (p, ph) := OpenPcm(h.pcm, ready);
    if ph.None? then (h.(pcm := p), s.(pcm := None))
    else
      var (m, mh) := OpenMixer(h.mixer, mixerOk);
      (Handles(p, m), s.(pcm := ph, mixer := mh))
  }

  function StandbyOut(h: Handles, s: OutStream): (Handles, OutStream) {
    CloseOut(h, s.(standbyCnt := s.standbyCnt + 1, standby := true))
  }

  function CloseIn(h: Handles, s: InStream): (Handles, InStream) {
    (if s.mixer.Some? then h.(mixer := CloseShared(h.mixer)) else h,
     s.(mixer := None, pcm := false, live := if s.pcm && s.live > 0 then s.live - 1 else s.live))
  }

  function OpenIn(h: Handles, s: InStream, ready: bool, mixerOk: bool): (Handles, InStream) {
    if !ready then (h, s.(pcm := false))
    else
      var (m, mh) := OpenMixer(h.mixer, mixerOk);
      (h.(mixer := m), s.(pcm := true, live := s.live + 1, mixer := mh))
  }

  function StandbyIn(h: Handles, s: InStream): (Handles, InStream) {
    CloseIn(h, s.(standbyCnt := s.standbyCnt + 1, standby := true))
  }

  datatype CallState = CallState(handles: Handles, inCall: bool, output: Option<OutStream>, input: Option<InStream>)

  function ForceStandby(s: CallState): CallState {
    var (h1, o) := if s.output.None? then (s.handles, None)
                   else var (h, x) := StandbyOut(s.handles, s.output.value); (h, Some(x));
    var (h2, i) := if s.input.None? then (h1, None)
                   else var (h, x) := StandbyIn(h1, s.input.value); (h, Some(x));
    CallState(h2, s.inCall, o, i)
  }

  /** The call transitions of setMode: entering a call silences the streams it has locked and takes a
      use of each handle for itself, leaving it gives those uses back and then silences the streams.
      `ready` and `mixerOk` are the driver's answers to the two opens, which the source ignores. */
  function SwitchCall(s: CallState, enter: bool, leave: bool, ready: bool, mixerOk: bool): CallState {
    if enter && !s.inCall then
      var t := ForceStandby(s);
      t.(handles := Handles(OpenPcm(t.handles.pcm, ready).0, OpenMixer(t.handles.mixer, mixerOk).0),
         inCall := true)
    else if leave && s.inCall then
      ForceStandby(s.(handles := Handles(CloseShared(s.handles.pcm), CloseShared(s.handles.mixer)),
                      inCall := false))
    else s
  }

  // ------------------------------------------------------------------------- classes

  /** The counters and handles of AudioHardware. */
  class AudioHardware {
    var pcm: Option<nat>
    var pcmOpenCnt: nat
    var pcmSerial: nat
    var pcmLog: seq<DriverOp>
    var mixer: Option<nat>
    var mixerOpenCnt: nat
    var mixerSerial: nat
    var mixerLog: seq<DriverOp>
    var inCallAudioMode: bool

    ghost function Value(): Handles
      reads this
    {
      Handles(Shared(pcm, pcmOpenCnt, pcmSerial, pcmLog), Shared(mixer, mixerOpenCnt, mixerSerial, mixerLog))
    }

    constructor ()
      ensures Value() == Handles(CLOSED, CLOSED) && !inCallAudioMode
    {
      pcm, pcmOpenCnt, pcmSerial, pcmLog := None, 0, 0, [];
      mixer, mixerOpenCnt, mixerSerial, mixerLog := None, 0, 0, [];
      inCallAudioMode := false;
    }

    /** `ready` is the driver's answer to pcm_is_ready. */
    method OpenPcmOut(ready: bool) returns (r: Option<nat>)
      modifies this
      ensures Value() == old(Value()).(pcm := OpenPcm(old(Value()).pcm, ready).0)
      ensures r == OpenPcm(old(Value()).pcm, ready).1
      ensures inCallAudioMode == old(inCallAudioMode)
    {
      pcmOpenCnt := pcmOpenCnt + 1;
      if pcmOpenCnt == 1 {
        if pcm.Some? {
          pcmOpenCnt := pcmOpenCnt - 1;
          return None;
        }
        var h := pcmSerial;
        pcmSerial := pcmSerial + 1;
        pcm := Some(h);
        pcmLog := pcmLog + [Opened(h)];
        if !ready {
          pcmLog := pcmLog + [Closed(h)];
          pcmOpenCnt := pcmOpenCnt - 1;
          pcm := None;
        }
      }
      return pcm;
    }

    method ClosePcmOut()
      modifies this
      ensures Value() == old(Value()).(pcm := CloseShared(old(Value()).pcm))
      ensures inCallAudioMode == old(inCallAudioMode)
    {
      if pcmOpenCnt == 0 {
        return;
      }
      pcmOpenCnt := pcmOpenCnt - 1;
      if pcmOpenCnt == 0 {
        if pcm.Some? {
          pcmLog := pcmLog + [Closed(pcm.value)];
        }
        pcm := None;
      }
    }

    method OpenMixerRef(ok: bool) returns (r: Option<nat>)
      modifies this
      ensures Value() == old(Value()).(mixer := OpenMixer(old(Value()).mixer, ok).0)
      ensures r == OpenMixer(old(Value()).mixer, ok).1
      ensures inCallAudioMode == old(inCallAudioMode)
    {
      mixerOpenCnt := mixerOpenCnt + 1;
      if mixerOpenCnt == 1 {
        if mixer.Some? {
          mixerOpenCnt := mixerOpenCnt - 1;
          return None;
        }
        if !ok {
          mixerOpenCnt := mixerOpenCnt - 1;
          return None;
        }
        mixer := Some(mixerSerial);
        mixerLog := mixerLog + [Opened(mixerSerial)];
        mixerSerial := mixerSerial + 1;
      }
      return mixer;
    }

    method CloseMixerRef()
      modifies this
      ensures Value() == old(Value()).(mixer := CloseShared(old(Value()).mixer))
      ensures inCallAudioMode == old(inCallAudioMode)
    {
      if mixerOpenCnt == 0 {
        return;
      }
      mixerOpenCnt := mixerOpenCnt - 1;
      if mixerOpenCnt == 0 {
        if mixer.Some? {
          mixerLog := mixerLog + [Closed(mixer.value)];
        }
        mixer := None;
      }
    }

    ghost function Calling(spOut: AudioStreamOut?, spIn: AudioStreamIn?): CallState
      reads this, spOut, spIn
    {
      CallState(Value(), inCallAudioMode,
                if spOut == null then None else Some(spOut.Value()),
                if spIn == null then None else Some(spIn.Value()))
    }

    /** The part of setMode that runs with every lock held, for a mode change that the base class
        accepted. `enter` and `leave` say which of the two transitions the new mode asks for. */
    method ApplyMode(enter: bool, leave: bool, spOut: AudioStreamOut?, spIn: AudioStreamIn?,
                     ready: bool, mixerOk: bool)
      requires !(enter && leave)
      requires spOut != null ==> spOut.hardware == this
      requires spIn != null ==> spIn.hardware == this
      modifies this, spOut, spIn
      ensures Calling(spOut, spIn) == SwitchCall(old(Calling(spOut, spIn)), enter, leave, ready, mixerOk)
      ensures if (enter && !old(inCallAudioMode)) || (leave && old(inCallAudioMode)) then
                && inCallAudioMode == enter
                && (spOut != null ==> spOut.Value() == OutStream(true, old(spOut.standbyCnt) + 1, None, None))
                && (spIn != null ==> spIn.standby && spIn.standbyCnt == old(spIn.standbyCnt) + 1
                                     && !spIn.pcm && spIn.mixer.None?)
              else
                && Value() == old(Value()) && inCallAudioMode == old(inCallAudioMode)
                && (spOut != null ==> spOut.Value() == old(spOut.Value()))
                && (spIn != null ==> spIn.Value() == old(spIn.Value()))
    {
      if enter && !inCallAudioMode {
        if spOut != null {
          spOut.DoStandby();
        }
        if spIn != null {
          spIn.DoStandby();
        }
        var _ := OpenPcmOut(ready);
        var _ := OpenMixerRef(mixerOk);
        inCallAudioMode := true;
      }
      if leave && inCallAudioMode {
        CloseMixerRef();
        ClosePcmOut();
        if spOut != null {
          spOut.DoStandby();
        }
        if spIn != null {
          spIn.DoStandby();
        }
        inCallAudioMode := false;
      }
    }
  }

  class AudioStreamOut {
    const hardware: AudioHardware
    var pcm: Option<nat>
    var mixer: Option<nat>
    var standby: bool
    var standbyCnt: nat

    ghost function Value(): OutStream
      reads this
    {
      OutStream(standby, standbyCnt, pcm, mixer)
    }

    constructor (hw: AudioHardware)
      ensures hardware == hw && Value() == NEW_OUT
    {
      hardware, pcm, mixer, standby, standbyCnt := hw, None, None, true, 0;
    }

    method Close()
      modifies this, hardware
      ensures (hardware.Value(), Value()) == CloseOut(old(hardware.Value()), old(Value()))
      ensures hardware.inCallAudioMode == old(hardware.inCallAudioMode)
    {
      if mixer.Some? {
        hardware.CloseMixerRef();
        mixer := None;
      }
      if pcm.Some? {
        hardware.ClosePcmOut();
        pcm := None;
      }
    }

    method Open(ready: bool, mixerOk: bool) returns (ok: bool)
      modifies this, hardware
      ensures (hardware.Value(), Value()) == OpenOut(old(hardware.Value()), old(Value()), ready, mixerOk)
      ensures hardware.inCallAudioMode == old(hardware.inCallAudioMode)
      ensures ok == pcm.Some?
    {
      pcm := hardware.OpenPcmOut(ready);
      if pcm.None? {
        return false;
      }
      mixer := hardware.OpenMixerRef(mixerOk);
      return true;
    }

    method DoStandby()
      modifies this, hardware
      ensures (hardware.Value(), Value()) == StandbyOut(old(hardware.Value()), old(Value()))
      ensures hardware.inCallAudioMode == old(hardware.inCallAudioMode)
    {
      standbyCnt := standbyCnt + 1;
      if !standby {
        standby := true;
      }
      Close();
    }
  }

  class AudioStreamIn {
    const hardware: AudioHardware
    var pcm: bool
    var live: nat
    var mixer: Option<nat>
    var standby: bool
    var standbyCnt: nat

    ghost function Value(): InStream
      reads this
    {
      InStream(standby, standbyCnt, pcm, live, mixer)
    }

    constructor (hw: AudioHardware)
      ensures hardware == hw && Value() == NEW_IN
    {
      hardware, pcm, live, mixer, standby, standbyCnt := hw, false, 0, None, true, 0;
    }

    method Close()
      modifies this, hardware
      ensures (hardware.Value(), Value()) == CloseIn(old(hardware.Value()), old(Value()))
      ensures hardware.inCallAudioMode == old(hardware.inCallAudioMode)
    {
      if mixer.Some? {
        hardware.CloseMixerRef();
        mixer := None;
      }
      if pcm {
        live := if live > 0 then live - 1 else 0;
        pcm := false;
      }
    }

    method Open(ready: bool, mixerOk: bool) returns (ok: bool)
      modifies this, hardware
      ensures (hardware.Value(), Value()) == OpenIn(old(hardware.Value()), old(Value()), ready, mixerOk)
      ensures hardware.inCallAudioMode == old(hardware.inCallAudioMode)
      ensures ok == pcm
    {
      if !ready {
        pcm := false;
        return false;
      }
      pcm, live := true, live + 1;
      mixer := hardware.OpenMixerRef(mixerOk);
      return true;
    }

    method DoStandby()
      modifies this, hardware
      ensures (hardware.Value(), Value()) == StandbyIn(old(hardware.Value()), old(Value()))
      ensures hardware.inCallAudioMode == old(hardware.inCallAudioMode)
    {
      standbyCnt := standbyCnt + 1;
      if !standby {
        standby := true;
      }
      Close();
    }
  }
}
