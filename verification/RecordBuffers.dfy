/** Who owns the camera's buffers: the driver's queues, the client that was handed a recorded frame, or
    nobody. */
module RecordBuffers {
  import opened Options

  const MAX_BUFFERS: nat := 8

  function First(n: nat): (s: set<nat>)
    ensures forall i: nat :: i in s <==> i < n
  {
    if n == 0 then {} else First(n - 1) + {n - 1}
  }

  const ALL: set<nat> := First(MAX_BUFFERS)

  // ---------------------------------------------------------------------------------- SecCamera

  /** The flags m_flag_camera_start and m_flag_record_start and the buffers queued with the driver. */
  datatype Camera = Camera(previewOn: bool, preview: set<nat>, recordOn: bool, record: set<nat>)

  /** How starting a stream goes: or the driver refuses a call after so many buffers were queued; the
      preview may by then be flagged as started. */
  datatype Start = Ready | Fails(queued: nat, on: bool)

  function StartPreview(c: Camera, st: Start): (Camera, int) {
    if c.previewOn then (c, 0)
    else match st
      case Ready => (c.(previewOn := true, preview := ALL), 0)
      case Fails(n, on) =>
        (c.(previewOn := on && n >= MAX_BUFFERS, preview := if n < MAX_BUFFERS then First(n) else ALL), -1)
  }

  function StopPreview(c: Camera): Camera {
    if c.previewOn then c.(previewOn := false, preview := {}) else c
  }

  /** What the driver does during one getPreview: no frame within a second, the calls of the reset (the name
      of the input is what enuminput returns, NULL if it fails), the frame, and its return to the queue. */
  datatype Fetch = Fetch(stalled: bool, querycap: bool, named: bool, input: bool, restart: Start,
                         frame: int, requeued: bool)

  /** A driver hands out a buffer it holds, or an error. */
  function Dequeue(queue: set<nat>, frame: int): int {
    if frame >= 0 && frame in queue then frame else -1
  }

  /** A driver takes a buffer it does not hold yet. */
  function Enqueue(queue: set<nat>, index: nat): set<nat> {
    if index < MAX_BUFFERS then queue + {index} else queue
  }

  function FetchFrame(c: Camera, f: Fetch): (Camera, int) {
    var index := Dequeue(c.preview, f.frame);
    if !(0 <= index < MAX_BUFFERS) then (c, -1)
    else
      var queue := c.preview - {index};
      if !f.requeued then (c.(preview := queue), -1) else (c.(preview := Enqueue(queue, index)), index)
  }

  /** getPreview; the reset gives up if the input has a name. */
  function GetPreview(c: Camera, f: Fetch): (Camera, int) {
    if c.previewOn && !f.stalled then FetchFrame(c, f)
    else
      var off := StopPreview(c);
      if !f.querycap || f.named || !f.input then (off, -1)
      else
        var (on, ret) := StartPreview(off, f.restart);
        if ret < 0 then (on, 0) else FetchFrame(on, f)
  }

  function StartRecord(c: Camera, st: Start): (Camera, int) {
    if c.recordOn then (c, 0)
    else match st
      case Ready => (c.(recordOn := true, record := ALL), 0)
      case Fails(n, _) => (c.(record := if n < MAX_BUFFERS then First(n) else ALL), -1)
  }

  /** How stopping a recording goes: the driver may refuse to end the stream, or the frame rate after it. */
  datatype Stop = Done | RateFails | StreamFails

  /** The flag is cleared before the driver is asked. */
  function StopRecord(c: Camera, st: Stop): (Camera, int) {
    if !c.recordOn then (c, 0)
    else (c.(recordOn := false, record := if st.StreamFails? then c.record else {}), if st.Done? then 0 else -1)
  }

  function GetRecordFrame(c: Camera, frame: int): (Camera, int) {
    var index := if c.recordOn then Dequeue(c.record, frame) else -1;
    (if index < 0 then c else c.(record := c.record - {index}), index)
  }

  function ReleaseRecordFrame(c: Camera, index: nat): Camera {
    if c.recordOn then c.(record := Enqueue(c.record, index)) else c
  }

  // ------------------------------------------------------------------------------------- preview

  /** A preview that is on has all its buffers queued. */
  predicate Whole(c: Camera) {
    c.previewOn ==> c.preview == ALL
  }

  /** A start that ends with the preview on. */
  predicate SwitchesOn(st: Start) {
    st.Ready? || (st.on && st.queued >= MAX_BUFFERS)
  }

  datatype PreviewStep = Starts(driver: Start) | Stops | Fetches(fetch: Fetch)

  function PreviewAfter(c: Camera, s: PreviewStep): Camera {
    match s
    case Starts(st) => StartPreview(c, st).0
    case Stops => StopPreview(c)
    case Fetches(f) => GetPreview(c, f).0
  }

  /** Any calls, with a driver that takes back the buffers it is given. */
  ghost predicate PreviewSession(states: seq<Camera>, steps: seq<PreviewStep>) {
    && |states| == |steps| + 1 && !states[0].previewOn
    && forall k | 0 <= k < |steps| ::
         (steps[k].Fetches? ==> steps[k].fetch.requeued) && states[k + 1] == PreviewAfter(states[k], steps[k])
  }

  lemma PreviewStepKeepsWhole(c: Camera, s: PreviewStep)
    requires Whole(c) && (s.Fetches? ==> s.fetch.requeued)
    ensures Whole(PreviewAfter(c, s))
  {
    if s.Fetches? {
      var index := s.fetch.frame;
      if 0 <= index < MAX_BUFFERS {
        assert ALL - {index} + {index} == ALL;
      }
    }
  }

  lemma {:induction false} PreviewStaysWhole(states: seq<Camera>, steps: seq<PreviewStep>, k: nat)
    requires PreviewSession(states, steps) && k < |states|
    ensures Whole(states[k])
  {
    if k > 0 {
      PreviewStaysWhole(states, steps, k - 1);
      assert states[k] == PreviewAfter(states[k - 1], steps[k - 1]);
      hide Whole, PreviewAfter;
      PreviewStepKeepsWhole(states[k - 1], steps[k - 1]);
    }
  }

  /** The call comes to fetching a frame: the preview is on and delivers, or the camera is reset and starts anew. */
  predicate Fetching(c: Camera, f: Fetch) {
    (c.previewOn && !f.stalled) || (f.querycap && !f.named && f.input && f.restart.Ready?)
  }

  /** What the driver has queued when it fetches. */
  function QueueThen(c: Camera, f: Fetch): set<nat> {
    if c.previewOn && !f.stalled then c.preview else ALL
  }

  /** A call that comes to fetching answers with the very buffer the driver hands out, exactly if that is one it
      has queued and it takes it back; the queue is then as before. Any other answer that looks like a frame is
      the 0 of a restart that failed. */
  lemma FrameIsTheDrivers(c: Camera, f: Fetch)
    ensures var (c', index) := GetPreview(c, f);
      if Fetching(c, f) then
        && (index >= 0 <==> 0 <= f.frame < MAX_BUFFERS && f.frame in QueueThen(c, f) && f.requeued)
        && (index >= 0 ==> index == f.frame && c'.previewOn && c'.preview == QueueThen(c, f))
        && c'.recordOn == c.recordOn && c'.record == c.record
      else
        && (index >= 0 <==> f.querycap && !f.named && f.input)
        && (index >= 0 ==> index == 0 && f.restart.Fails?)
  {
    if 0 <= f.frame < MAX_BUFFERS && f.frame in QueueThen(c, f) {
      assert QueueThen(c, f) - {f.frame} + {f.frame} == QueueThen(c, f);
    }
  }

  /** Over any session, a call that gives back a frame gives the buffer the driver has just handed out, and leaves
      the preview on with every buffer queued, unless the frame is the 0 that stands for a restart that failed. */
  lemma FrameLeavesPreviewWhole(states: seq<Camera>, steps: seq<PreviewStep>, k: nat)
    requires PreviewSession(states, steps) && k < |steps| && steps[k].Fetches?
    ensures var f, index := steps[k].fetch, GetPreview(states[k], steps[k].fetch).1;
      index >= 0 ==>
        && index < MAX_BUFFERS
        && (if Fetching(states[k], f) then index == f.frame && f.frame in ALL else index == 0)
        && (states[k + 1].previewOn && states[k + 1].preview == ALL <==>
              (states[k].previewOn && !f.stalled) || SwitchesOn(f.restart))
  {
    PreviewStaysWhole(states, steps, k);
    PreviewStaysWhole(states, steps, k + 1);
    assert states[k + 1] == PreviewAfter(states[k], steps[k]);
    FrameIsTheDrivers(states[k], steps[k].fetch);
  }

  /** Exactly when a call that has to reset the camera ends with the preview on: the input must have no name. */
  lemma ResetRestartsIff(c: Camera, f: Fetch)
    requires !c.previewOn || f.stalled
    ensures GetPreview(c, f).0.previewOn <==> f.querycap && !f.named && f.input && SwitchesOn(f.restart)
  {
  }

  /** While the driver answers well, a frame comes exactly from a preview that is on and delivers; the reset
      of one that does not ends with the preview off. */
  lemma ResetNeverRestarts(c: Camera, f: Fetch)
    requires Whole(c) && f.named && f.requeued && f.frame in ALL
    ensures var (c', index) := GetPreview(c, f);
      && (index >= 0 <==> c.previewOn && !f.stalled)
      && (index < 0 ==> index == -1 && c' == StopPreview(c) && !c'.previewOn)
      && Whole(c')
  {
    assert ALL - {f.frame} + {f.frame} == ALL;
  }

  function GetPreviews(c: Camera, fs: seq<Fetch>): (Camera, seq<int>)
    decreases |fs|
  {
    if fs == [] then (c, [])
    else
      var (c', index) := GetPreview(c, fs[0]);
      var (c'', rest) := GetPreviews(c', fs[1..]);
      (c'', [index] + rest)
  }

  lemma {:induction false} OffStaysOff(c: Camera, fs: seq<Fetch>)
    requires !c.previewOn && forall k | 0 <= k < |fs| :: fs[k].named
    decreases |fs|
    ensures var (c', indices) := GetPreviews(c, fs);
      c' == c && |indices| == |fs| && forall k | 0 <= k < |indices| :: indices[k] == -1
  {
    if fs != [] {
      assert fs[0].named;
      OffStaysOff(c, fs[1..]);
    }
  }

  /** From a call that stalls on, no call gives back a frame, however the camera recovers, until the preview is
      started anew. */
  lemma StallEndsPreview(c: Camera, fs: seq<Fetch>)
    requires fs != [] && fs[0].stalled && forall k | 0 <= k < |fs| :: fs[k].named
    ensures var (c', indices) := GetPreviews(c, fs);
      && c' == StopPreview(c) && !c'.previewOn
      && |indices| == |fs| && forall k | 0 <= k < |indices| :: indices[k] == -1
  {
    OffStaysOff(StopPreview(c), fs[1..]);
    assert GetPreview(c, fs[0]) == (StopPreview(c), -1);
  }

  // ----------------------------------------------------------------------------------- recording

  /** A frame in the client's hands: a slot of one of the heaps that were allocated. */
  datatype Frame = Frame(heap: nat, index: nat)

  /** slots are the buf_index fields of mRecordHeap, the heap-th heap allocated; video says whether the
      client wants frames. */
  datatype Device = Device(cam: Camera, running: bool, heap: nat, slots: seq<Option<nat>>, video: bool,
                           held: set<Frame>)

  function Unset(): seq<Option<nat>> {
    seq(MAX_BUFFERS, _ => None)
  }

  function StartRecording(d: Device, st: Start): Device {
    var d1 := d.(heap := d.heap + 1, slots := Unset());
    if d.running then d1
    else
      var (cam, ret) := StartRecord(d.cam, st);
      d1.(cam := cam, running := ret >= 0)
  }

  function StopRecording(d: Device, st: Stop): Device {
    if !d.running then d
    else
      var (cam, ret) := StopRecord(d.cam, st);
      d.(cam := cam, running := ret < 0)
  }

  /** What previewThread does for the recording after each preview frame; addresses says whether the driver
      gives the addresses of the frame. */
  function RecordFrame(d: Device, frame: int, addresses: bool): Device {
    if !d.running then d
    else
      var (cam, index) := GetRecordFrame(d.cam, frame);
      if index < 0 then d
      else if !addresses || index >= |d.slots| then d.(cam := cam)
      else
        var d1 := d.(cam := cam, slots := d.slots[index := Some(index)]);
        if d.video then d1.(held := d.held + {Frame(d.heap, index)})
        else d1.(cam := ReleaseRecordFrame(cam, index))
  }

  /** The client gives a frame back: the buffer is the one its slot names; the slot of an earlier heap names
      whatever its memory now holds. */
  function ReleaseRecordingFrame(d: Device, f: Frame, stray: nat): Device {
    var index :=
      if f.heap == d.heap && f.index < |d.slots| && d.slots[f.index].Some? then d.slots[f.index].value
      else stray;
    d.(cam := ReleaseRecordFrame(d.cam, index), held := d.held - {f})
  }

  function Indices(held: set<Frame>): set<nat> {
    set f | f in held :: f.index
  }

  /** A recording's buffers are split between the driver and the client, and every frame the client holds
      has a slot that names it. */
  ghost predicate Owned(d: Device) {
    && (d.running <==> d.cam.recordOn)
    && |d.slots| <= MAX_BUFFERS && (d.running ==> |d.slots| == MAX_BUFFERS)
    && (d.running ==> d.cam.record + Indices(d.held) == ALL && d.cam.record !! Indices(d.held))
    && (!d.running ==> d.cam.record == {})
    && forall f | f in d.held ::
         f.heap == d.heap && f.index < |d.slots| && d.slots[f.index] == Some(f.index)
  }

  /** Starting a recording keeps the buffers apart exactly when the client holds no frame. */
  lemma StartKeepsOwnedIff(d: Device)
    requires Owned(d)
    ensures Owned(StartRecording(d, Ready)) <==> d.held == {}
  {
    var d' := StartRecording(d, Ready);
    if d.held != {} {
      var f :| f in d.held;
      assert f in d'.held && f.heap != d'.heap;
    } else {
      assert Indices(d.held) == {};
      assert ALL + {} == ALL;
    }
  }

  /** A stop keeps ownership exactly when the driver carries it out: otherwise the recording still counts as
      running while the camera ignores what comes back. */
  lemma StopKeepsOwnedIff(d: Device, st: Stop)
    requires Owned(d)
    ensures Owned(StopRecording(d, st)) <==> !d.running || st.Done?
  {
  }

  /** A frame goes to the client or back to the driver; it is lost exactly when it has no addresses. */
  lemma FrameKeepsOwnedIff(d: Device, frame: int, addresses: bool)
    requires Owned(d)
    ensures Owned(RecordFrame(d, frame, addresses)) <==>
      addresses || !d.running || GetRecordFrame(d.cam, frame).1 < 0
  {
    var d' := RecordFrame(d, frame, addresses);
    var (cam, index) := GetRecordFrame(d.cam, frame);
    if d.running && index >= 0 {
      assert index in d.cam.record && index in ALL;
      if !addresses {
        assert index !in d'.cam.record + Indices(d'.held);
      } else if d.video {
        HeldGrows(d.held, Frame(d.heap, index));
        SlotsKeep(d, index);
        assert d'.cam.record + Indices(d'.held) == d.cam.record + Indices(d.held);
      } else {
        SlotsKeep(d, index);
        assert d'.cam.record == d.cam.record;
      }
    }
  }

  lemma HeldGrows(held: set<Frame>, f: Frame)
    ensures Indices(held + {f}) == Indices(held) + {f.index}
  {
    forall i | i in Indices(held) + {f.index}
      ensures i in Indices(held + {f})
    {
      if i == f.index {
        assert f in held + {f};
      } else {
        var g :| g in held && g.index == i;
        assert g in held + {f};
      }
    }
  }

  lemma SlotsKeep(d: Device, index: nat)
    requires Owned(d) && index < |d.slots|
    ensures var slots := d.slots[index := Some(index)];
      forall f | f in d.held :: slots[f.index] == Some(f.index)
  {
  }

  /** A frame given back once returns the buffer it stands for, whatever is left of older heaps. */
  lemma ReleaseKeepsOwned(d: Device, f: Frame, stray: nat)
    requires Owned(d) && f in d.held
    ensures var d' := ReleaseRecordingFrame(d, f, stray);
      && Owned(d')
      && (d.running ==> d'.cam.record == d.cam.record + {f.index})
  {
    var d' := ReleaseRecordingFrame(d, f, stray);
    assert f.index in Indices(d.held);
    assert Indices(d'.held) == Indices(d.held) - {f.index} by {
      forall g | g in d.held && g != f
        ensures g.index != f.index
      {
        assert g.heap == f.heap;
      }
      forall i | i in Indices(d.held) && i != f.index
        ensures i in Indices(d'.held)
      {
        var g :| g in d.held && g.index == i;
        assert g in d'.held;
      }
    }
    if d.running {
      assert f.index in ALL;
    }
  }

  // ------------------------------------------------------------------------------------ sessions

  datatype Step = Begin | End | Deliver(next: int) | Release(frame: Frame, stray: nat) | Want(video: bool)

  /** What the client may do: give back what it holds, and start a recording with empty hands. */
  predicate Allowed(d: Device, s: Step) {
    (s.Release? ==> s.frame in d.held) && (s.Begin? ==> d.held == {})
  }

  /** A step with a driver that answers well. */
  function After(d: Device, s: Step): Device {
    match s
    case Begin => StartRecording(d, Ready)
    case End => StopRecording(d, Done)
    case Deliver(next) => RecordFrame(d, next, true)
    case Release(f, stray) => ReleaseRecordingFrame(d, f, stray)
    case Want(video) => d.(video := video)
  }

  ghost predicate Session(states: seq<Device>, steps: seq<Step>) {
    && |states| == |steps| + 1
    && states[0].held == {} && !states[0].running && !states[0].cam.recordOn
    && states[0].cam.record == {} && states[0].slots == []
    && forall k | 0 <= k < |steps| :: Allowed(states[k], steps[k]) && states[k + 1] == After(states[k], steps[k])
  }

  /** Over any session the buffers of a recording stay split between the driver and the client, and every
      slot names its frame for as long as the client holds it. */
  lemma {:induction false} SessionKeepsOwned(states: seq<Device>, steps: seq<Step>, k: nat)
    requires Session(states, steps) && k < |states|
    ensures Owned(states[k])
  {
    if k > 0 {
      SessionKeepsOwned(states, steps, k - 1);
      var d, s := states[k - 1], steps[k - 1];
      assert Allowed(d, s) && states[k] == After(d, s);
      hide Owned, StartRecording, StopRecording, RecordFrame, ReleaseRecordingFrame;
      match s
      case Begin => StartKeepsOwnedIff(d);
      case End => StopKeepsOwnedIff(d, Done);
      case Deliver(next) => FrameKeepsOwnedIff(d, next, true);
      case Release(f, stray) => ReleaseKeepsOwned(d, f, stray);
      case Want(video) => WantKeepsOwned(d, video);
    } else {
      assert Indices(states[0].held) == {};
    }
  }

  lemma WantKeepsOwned(d: Device, video: bool)
    requires Owned(d)
    ensures Owned(d.(video := video))
  {
  }

  // -------------------------------------------------------------------- sessions that lose a buffer

  const ASLEEP := Device(Camera(false, {}, false, {}), false, 0, [], false, {})

  lemma OneMore(states: seq<Device>, steps: seq<Step>, s: Step) returns (states': seq<Device>, steps': seq<Step>)
    requires Session(states, steps) && Allowed(states[|steps|], s)
    ensures Session(states', steps') && states' == states + [After(states[|steps|], s)] && steps' == steps + [s]
  {
    hide After, Allowed;
    states', steps' := states + [After(states[|steps|], s)], steps + [s];
  }

  /** A session in which the client records and wants frames. */
  lemma Records() returns (states: seq<Device>, steps: seq<Step>)
    ensures Session(states, steps)
    ensures var d := states[|steps|]; d.running && d.video && d.cam.recordOn && d.cam.record == ALL && d.held == {}
    ensures |states[|steps|].slots| == MAX_BUFFERS
  {
    states, steps := [ASLEEP], [];
    states, steps := OneMore(states, steps, Want(true));
    states, steps := OneMore(states, steps, Begin);
  }

  /** A frame for which the driver gives no addresses belongs to nobody. */
  lemma FrameCanBeLost() returns (states: seq<Device>, steps: seq<Step>)
    ensures Session(states, steps)
    ensures var d := states[|steps|];
      Owned(d) && d.running && !Owned(RecordFrame(d, 0, false))
  {
    states, steps := Records();
    SessionKeepsOwned(states, steps, |steps|);
    assert 0 in ALL;
    FrameKeepsOwnedIff(states[|steps|], 0, false);
  }

  /** A second startRecording while the client holds a frame takes the slot away under it. */
  lemma HeldSlotCanBeLost() returns (states: seq<Device>, steps: seq<Step>)
    ensures Session(states, steps)
    ensures var d := states[|steps|];
      Owned(d) && d.running && d.held != {} && !Owned(StartRecording(d, Ready))
  {
    states, steps := Records();
    var d := states[|steps|];
    assert 0 in ALL;
    assert Frame(d.heap, 0) in After(d, Deliver(0)).held;
    states, steps := OneMore(states, steps, Deliver(0));
    SessionKeepsOwned(states, steps, |steps|);
    StartKeepsOwnedIff(states[|steps|]);
  }
}
