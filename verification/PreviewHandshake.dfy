/** The camera's preview: the thread that fetches frames and one client thread that starts and stops it,
    step by step over mPreviewLock and two condition variables. A wake-up is never spurious; driver calls
    that start the camera may fail, those that stop it do not. */
module PreviewHandshake {
  import opened Options

  // ---------------------------------------------------------------------------------- the state

  datatype Owner = Free | Preview | Client

  /** Where the preview thread is. Parked: waiting on mPreviewCondition. */
  datatype PreviewPc =
    | Locking | Testing | StoppingCamera | Announcing | Blocking | Parked | Woken | Unlocking
    | Fetching | Resetting | Delivering

  /** The client's calls: startPreview, stopPreview, and setPreviewWindow with a window. */
  datatype Call = Start | Stop | Window

  /** Where the client is. Waiting: in stopPreviewInternal, on mPreviewStoppedCondition. LeftLocked: outside any
      call, but an earlier setPreviewWindow has returned without giving the lock back. Stuck: in a call that
      waits for that lock. */
  datatype ClientPc =
    | Idle | Lock(call: Call)
    | StartTest | WindowTest | StopTest(call: Call)
    | StopSignal(call: Call) | StopBlock(call: Call) | Waiting(call: Call) | StopWoken(call: Call)
    | Stopped(call: Call)
    | WindowSetup | ResumeTest
    | DriverStart(call: Call) | HeapFree(call: Call) | HeapAlloc(call: Call) | Wake(call: Call)
    | Unlock | LeftLocked | Stuck

  /** started is m_flag_camera_start; heap numbers the allocations of mPreviewHeap. */
  datatype State = State(
    p: PreviewPc, c: ClientPc, owner: Owner,
    running: bool, deferred: bool, window: bool,
    started: bool, heap: Option<nat>, heaps: nat)

  /** What the world decides: which call the client makes, whether a window can be set up, and how driver calls
      end. A failed start of the
      camera may leave the stream off, or on with the flag set. */
  datatype Driver = Succeeds | FailsOff | FailsOn
  datatype Choice = Choice(call: Call, toNull: bool, setup: bool, stalled: bool, driver: Driver)

  // -------------------------------------------------------------------------- the preview thread

  /** SecCamera::startPreview: a camera that is already started stays so and the call succeeds. */
  function FlagAfter(started: bool, d: Driver): bool {
    started || d.Succeeds? || d.FailsOn?
  }

  function CallFails(started: bool, d: Driver): bool {
    !started && !d.Succeeds?
  }

  /** mPreviewCondition.signal() */
  function SignalPreview(p: PreviewPc): PreviewPc {
    if p.Parked? then Woken else p
  }

  /** mPreviewStoppedCondition.signal() */
  function SignalClient(c: ClientPc): ClientPc {
    if c.Waiting? then StopWoken(c.call) else c
  }

  /** One step of the preview thread; None when it cannot take one. */
  function PreviewStep(s: State, ch: Choice): Option<State> {
    match s.p
    case Locking => if s.owner.Free? then Some(s.(owner := Preview, p := Testing)) else None
    case Testing => Some(s.(p := if s.running then Unlocking else StoppingCamera))
    case StoppingCamera => Some(s.(started := false, p := Announcing))
    case Announcing => Some(s.(c := SignalClient(s.c), p := Blocking))
    case Blocking => Some(s.(owner := Free, p := Parked))
    case Parked => None
    case Woken => if s.owner.Free? then Some(s.(owner := Preview, p := Testing)) else None
    case Unlocking => Some(s.(owner := Free, p := Fetching))
    case Fetching =>
      if ch.stalled || !s.started then Some(s.(started := false, p := Resetting)) else Some(s.(p := Delivering))
    case Resetting => Some(s.(started := FlagAfter(s.started, ch.driver), p := Delivering))
    case Delivering => Some(s.(p := Locking))
  }

  // ---------------------------------------------------------------------------------- the client

  function ClientStep(s: State, ch: Choice): Option<State> {
    match s.c
    case Idle =>
      if ch.call.Window? && ch.toNull then Some(s.(window := false))
      else if ch.call.Window? then Some(s.(window := true, c := Lock(Window)))
      else Some(s.(c := Lock(ch.call)))
    case Lock(call) =>
      if !s.owner.Free? then None
      else Some(s.(owner := Client,
                   c := match call case Start => StartTest case Stop => StopTest(Stop) case Window => WindowTest))
    case StartTest =>
      if s.running then Some(s.(c := Unlock))
      else Some(s.(running := true, deferred := !s.window, c := if s.window then DriverStart(Start) else Unlock))
    case WindowTest =>
      Some(s.(c := if s.running && !s.deferred then StopTest(Window) else WindowSetup))
    case StopTest(call) =>
      if s.running then Some(s.(running := false, c := if s.deferred then Stopped(call) else StopSignal(call)))
      else Some(s.(c := Stopped(call)))
    case StopSignal(call) => Some(s.(p := SignalPreview(s.p), c := StopBlock(call)))
    case StopBlock(call) => Some(s.(owner := Free, c := Waiting(call)))
    case Waiting(_) => None
    case StopWoken(call) => if s.owner.Free? then Some(s.(owner := Client, c := Stopped(call))) else None
    case Stopped(call) => Some(s.(c := if call.Window? then WindowSetup else Unlock))
    case WindowSetup => Some(s.(c := if ch.setup then ResumeTest else LeftLocked)) // every failure returns at once
    case ResumeTest => Some(s.(c := if s.running && s.deferred then DriverStart(Window) else Unlock))
    case DriverStart(call) =>
      Some(s.(started := FlagAfter(s.started, ch.driver),
              c := if CallFails(s.started, ch.driver) then Unlock else HeapFree(call)))
    case HeapFree(call) => Some(s.(heap := None, c := HeapAlloc(call)))
    case HeapAlloc(call) => Some(s.(heap := Some(s.heaps), heaps := s.heaps + 1, c := Wake(call)))
    case Wake(call) =>
      Some(s.(deferred := if call.Window? then false else s.deferred, p := SignalPreview(s.p), c := Unlock))
    case Unlock => Some(s.(owner := Free, c := Idle))
    case LeftLocked =>
      if ch.call.Window? && ch.toNull then Some(s.(window := false))
      else if ch.call.Window? then Some(s.(window := true, c := Stuck))
      else Some(s.(c := Stuck))
    case Stuck => None
  }

  /** A start of the deferred preview that fails after the stream went on. */
  predicate LeavesCameraOn(s: State, ch: Choice) {
    s.c == DriverStart(Window) && !s.started && ch.driver.FailsOn?
  }

  ghost predicate Step(s: State, s': State) {
    exists ch :: PreviewStep(s, ch) == Some(s') || ClientStep(s, ch) == Some(s')
  }

  /** A step in which no deferred start leaves the camera on. */
  ghost predicate CleanStep(s: State, s': State) {
    exists ch :: PreviewStep(s, ch) == Some(s') || (ClientStep(s, ch) == Some(s') && !LeavesCameraOn(s, ch))
  }

  /** The preview thread has parked once and no call has been made. */
  predicate Initial(s: State) {
    s.p.Parked? && s.c.Idle? && s.owner.Free? && !s.running && !s.deferred && !s.started && s.heap.None?
  }

  ghost predicate Run(run: seq<State>) {
    && run != [] && Initial(run[0])
    && forall k | 0 < k < |run| :: Step(run[k - 1], run[k])
  }

  ghost predicate CleanRun(run: seq<State>) {
    && run != [] && Initial(run[0])
    && forall k | 0 < k < |run| :: CleanStep(run[k - 1], run[k])
  }

  // -------------------------------------------------------------------------------- the invariant

  predicate PreviewHolds(p: PreviewPc) {
    p.Testing? || p.StoppingCamera? || p.Announcing? || p.Blocking? || p.Unlocking?
  }

  predicate ClientHolds(c: ClientPc) {
    !c.Idle? && !c.Lock? && !c.Waiting? && !c.StopWoken?
  }

  predicate OwnerFits(s: State) {
    && (s.owner.Preview? <==> PreviewHolds(s.p))
    && (s.owner.Client? <==> ClientHolds(s.c))
  }

  /** The client has asked the thread to stop and has not yet been answered. */
  predicate InStop(c: ClientPc) {
    c.StopSignal? || c.StopBlock? || c.Waiting?
  }

  /** Where the preview thread can be, by what the client is doing. */
  predicate PlacesFit(s: State) {
    match s.c
    case StopSignal(_) => !s.running
    case StopBlock(_) => !s.running && !s.p.Parked?
    case Waiting(_) => !s.running && !s.p.Parked? && !s.p.Blocking? && !s.p.Unlocking?
    case StopWoken(_) => !s.running && (s.p.Blocking? || s.p.Parked?)
    case Stopped(_) => !s.running && s.p.Parked?
    case DriverStart(call) => s.running && s.p.Parked? && (call.Window? <==> s.deferred)
    case HeapFree(call) => s.running && s.p.Parked? && (call.Window? <==> s.deferred)
    case HeapAlloc(call) => s.running && s.p.Parked? && (call.Window? <==> s.deferred)
    case Wake(call) =>
      s.running && s.p.Parked? && (call.Window? <==> s.deferred) && s.heap.Some?
    case StopTest(call) => (call.Window? ==> s.running && !s.deferred) && Settled(s)
    case WindowSetup => (!s.running || s.deferred) && s.p.Parked?
    case ResumeTest => (!s.running || s.deferred) && s.p.Parked?
    case LeftLocked => (!s.running || s.deferred) && s.p.Parked?
    case Stuck => (!s.running || s.deferred) && s.p.Parked?
    case _ => Settled(s)
  }

  /** Between stops: without a running preview the thread is parked, and with one it is not stopping. */
  predicate Settled(s: State) {
    if s.running && !s.deferred then !s.p.StoppingCamera? && !s.p.Announcing? && !s.p.Blocking?
    else s.p.Parked?
  }

  /** Frames are fetched into an allocated heap. */
  predicate HeapFits(s: State) {
    && (s.p.Locking? || s.p.Unlocking? || s.p.Fetching? || s.p.Resetting? || s.p.Delivering? ==> s.heap.Some?)
    && (s.running && (s.p.Woken? || s.p.Testing?) ==> s.heap.Some?)
  }

  predicate Invariant(s: State) {
    OwnerFits(s) && PlacesFit(s) && HeapFits(s)
  }

  /** The camera was started for a thread that is about to be woken. */
  predicate InResume(c: ClientPc) {
    c.HeapFree? || c.HeapAlloc? || c.Wake?
  }

  /** A parked thread that nobody is about to wake has left the camera off. */
  predicate CameraFits(s: State) {
    && (s.p.Announcing? || s.p.Blocking? ==> !s.started)
    && (s.p.Parked? && (!s.running || s.deferred) && !InStop(s.c) && !InResume(s.c) ==> !s.started)
  }

  lemma InitialFits(s: State)
    requires Initial(s)
    ensures Invariant(s) && CameraFits(s)
  {
  }

  lemma PreviewKeeps(s: State, ch: Choice)
    requires Invariant(s) && PreviewStep(s, ch).Some?
    ensures Invariant(PreviewStep(s, ch).value)
    ensures CameraFits(s) ==> CameraFits(PreviewStep(s, ch).value)
  {
    var s' := PreviewStep(s, ch).value;
    assert OwnerFits(s') by { hide CameraFits, HeapFits; }
    assert PlacesFit(s') by { hide CameraFits, HeapFits; }
    assert HeapFits(s') by { hide CameraFits; }
  }

  predicate InStart(c: ClientPc) {
    c.WindowSetup? || c.ResumeTest? || c.DriverStart? || c.HeapFree? || c.HeapAlloc? || c.Wake? || c.Unlock?
    || c.LeftLocked? || c.Stuck?
  }

  lemma ClientKeepsOwner(s: State, ch: Choice)
    requires OwnerFits(s) && ClientStep(s, ch).Some?
    ensures OwnerFits(ClientStep(s, ch).value)
  {
    hide OwnerFits, ClientStep, InStart;
    if InStart(s.c) {
      StartKeepsOwner(s, ch);
    } else {
      StopKeepsOwner(s, ch);
    }
  }

  lemma StartKeepsOwner(s: State, ch: Choice)
    requires OwnerFits(s) && InStart(s.c) && ClientStep(s, ch).Some?
    ensures OwnerFits(ClientStep(s, ch).value)
  {
    hide FlagAfter, CallFails;
  }

  lemma StopKeepsOwner(s: State, ch: Choice)
    requires OwnerFits(s) && !InStart(s.c) && ClientStep(s, ch).Some?
    ensures OwnerFits(ClientStep(s, ch).value)
  {
    hide FlagAfter, CallFails;
  }

  lemma ClientKeepsPlaces(s: State, ch: Choice)
    requires Invariant(s) && ClientStep(s, ch).Some?
    ensures PlacesFit(ClientStep(s, ch).value)
  {
    hide OwnerFits, ClientStep, HeapFits, PlacesFit, InStart;
    if InStart(s.c) {
      StartKeepsPlaces(s, ch);
    } else {
      StopKeepsPlaces(s, ch);
    }
  }

  lemma StartKeepsPlaces(s: State, ch: Choice)
    requires PlacesFit(s) && InStart(s.c) && ClientStep(s, ch).Some?
    ensures PlacesFit(ClientStep(s, ch).value)
  {
    hide FlagAfter, CallFails;
  }

  lemma StopKeepsPlaces(s: State, ch: Choice)
    requires OwnerFits(s) && PlacesFit(s) && !InStart(s.c) && ClientStep(s, ch).Some?
    ensures PlacesFit(ClientStep(s, ch).value)
  {
    hide FlagAfter, CallFails;
    if !s.c.StopBlock? && !s.c.StopWoken? {
      hide OwnerFits;
    }
  }

  lemma ClientKeepsHeap(s: State, ch: Choice)
    requires Invariant(s) && ClientStep(s, ch).Some?
    ensures HeapFits(ClientStep(s, ch).value)
  {
    hide FlagAfter, CallFails;
  }

  lemma ClientKeeps(s: State, ch: Choice)
    requires Invariant(s) && ClientStep(s, ch).Some?
    ensures Invariant(ClientStep(s, ch).value)
  {
    hide OwnerFits, PlacesFit, HeapFits, ClientStep;
    ClientKeepsOwner(s, ch);
    ClientKeepsPlaces(s, ch);
    ClientKeepsHeap(s, ch);
  }

  lemma ClientKeepsCamera(s: State, ch: Choice)
    requires Invariant(s) && CameraFits(s) && ClientStep(s, ch).Some? && !LeavesCameraOn(s, ch)
    ensures CameraFits(ClientStep(s, ch).value)
  {
    hide HeapFits, OwnerFits;
  }

  // ------------------------------------------------------------------------------- over all runs

  lemma {:induction false} RunKeeps(run: seq<State>, k: nat)
    requires Run(run) && k < |run|
    ensures Invariant(run[k])
  {
    hide Invariant, PreviewStep, ClientStep;
    if k == 0 {
      InitialFits(run[0]);
    } else {
      RunKeeps(run, k - 1);
      var s, s' := run[k - 1], run[k];
      assert Step(s, s');
      var ch :| PreviewStep(s, ch) == Some(s') || ClientStep(s, ch) == Some(s');
      if PreviewStep(s, ch) == Some(s') {
        PreviewKeeps(s, ch);
      } else {
        ClientKeeps(s, ch);
      }
    }
  }

  lemma {:induction false} CleanRunKeeps(run: seq<State>, k: nat)
    requires CleanRun(run) && k < |run|
    ensures Invariant(run[k]) && CameraFits(run[k])
  {
    hide Invariant, CameraFits, PreviewStep, ClientStep, LeavesCameraOn;
    if k == 0 {
      InitialFits(run[0]);
    } else {
      CleanRunKeeps(run, k - 1);
      var s, s' := run[k - 1], run[k];
      assert CleanStep(s, s');
      var ch :| PreviewStep(s, ch) == Some(s') || (ClientStep(s, ch) == Some(s') && !LeavesCameraOn(s, ch));
      if PreviewStep(s, ch) == Some(s') {
        PreviewKeeps(s, ch);
      } else {
        ClientKeeps(s, ch);
        ClientKeepsCamera(s, ch);
      }
    }
  }

  /** When stopPreviewInternal is left, by whatever path, the thread is parked and the preview is off. */
  lemma StoppedMeansParked(run: seq<State>, k: nat)
    requires Run(run) && k < |run| && run[k].c.Stopped?
    ensures run[k].p.Parked? && !run[k].running && run[k].owner.Client?
  {
    RunKeeps(run, k);
  }

  /** The camera is then off as well, if no deferred start has failed with the stream left on. */
  lemma StoppedMeansCameraOff(run: seq<State>, k: nat)
    requires CleanRun(run) && k < |run| && run[k].c.Stopped?
    ensures !run[k].started
  {
    CleanRunKeeps(run, k);
  }

  /** startPreviewInternal runs only while the thread is parked: it neither starts the camera nor replaces
      the heap under a frame. */
  lemma StartMeetsParkedThread(run: seq<State>, k: nat)
    requires Run(run) && k < |run|
    requires run[k].c.DriverStart? || run[k].c.HeapFree? || run[k].c.HeapAlloc?
    ensures run[k].p.Parked?
  {
    RunKeeps(run, k);
  }

  predicate InPreviewThread(p: PreviewPc) {
    p.Fetching? || p.Resetting? || p.Delivering?
  }

  /** A frame keeps its heap: from any point inside previewThread to any later one of the same frame. */
  lemma {:induction false} HeapIsStable(run: seq<State>, from: nat, to: nat)
    requires Run(run) && from <= to < |run|
    requires forall k | from <= k <= to :: InPreviewThread(run[k].p)
    ensures run[to].heap == run[from].heap && run[from].heap.Some?
  {
    hide Invariant, InPreviewThread, Step;
    assert InPreviewThread(run[from].p);
    if from < to {
      HeapIsStable(run, from, to - 1);
      RunKeeps(run, to - 1);
      assert InPreviewThread(run[to - 1].p);
      assert Step(run[to - 1], run[to]);
      FrameKeepsHeap(run[to - 1], run[to]);
    } else {
      RunKeeps(run, from);
      FrameHasHeap(run[from]);
    }
  }

  lemma FrameKeepsHeap(s: State, s': State)
    requires Invariant(s) && InPreviewThread(s.p) && Step(s, s')
    ensures s'.heap == s.heap
  {
    hide HeapFits, OwnerFits, FlagAfter, CallFails;
  }

  lemma FrameHasHeap(s: State)
    requires Invariant(s) && InPreviewThread(s.p)
    ensures s.heap.Some?
  {
  }

  /** A start that got its camera wakes the thread: the signal is never lost. */
  lemma StartWakesThread(run: seq<State>, k: nat)
    requires Run(run) && k + 1 < |run| && run[k].c.Wake? && !run[k + 1].c.Wake?
    ensures run[k + 1].p.Woken? && run[k + 1].running && !run[k + 1].deferred
  {
    RunKeeps(run, k);
    assert Step(run[k], run[k + 1]);
  }

  // ------------------------------------------------------------------------ a change of window

  predicate ForWindow(c: ClientPc) {
    || c == StopTest(Window) || c == StopSignal(Window) || c == StopBlock(Window) || c == Waiting(Window)
    || c == StopWoken(Window) || c == Stopped(Window)
    || c == DriverStart(Window) || c == HeapFree(Window) || c == HeapAlloc(Window) || c == Wake(Window)
  }

  /** The client is inside setPreviewWindow, with the lock or waiting. */
  predicate InWindowCall(c: ClientPc) {
    c.WindowTest? || c.WindowSetup? || c.ResumeTest? || ForWindow(c)
  }

  /** What the call has made of a preview by the time it is at c: it goes on exactly if it was deferred. */
  predicate WindowFits(s: State, deferred: bool) {
    match s.c
    case WindowTest => deferred <==> s.running && s.deferred
    case StopTest(_) => s.running && !s.deferred && !deferred
    case WindowSetup => (s.running ==> s.deferred) && (s.running <==> deferred)
    case ResumeTest => (s.running ==> s.deferred) && (s.running <==> deferred)
    case Unlock => s.running <==> deferred
    case LeftLocked => (s.running ==> s.deferred) && (s.running <==> deferred)
    case DriverStart(_) => s.running && deferred
    case HeapFree(_) => s.running && deferred
    case HeapAlloc(_) => s.running && deferred
    case Wake(_) => s.running && deferred
    case _ => !s.running && !deferred
  }

  lemma WindowStepFits(s: State, s': State, deferred: bool)
    requires InWindowCall(s.c) && WindowFits(s, deferred) && Step(s, s')
    requires InWindowCall(s'.c) || s'.c.Unlock? || s'.c.LeftLocked?
    ensures WindowFits(s', deferred)
  {
    hide PreviewStep, ClientStep, FlagAfter, CallFails;
    var ch :| PreviewStep(s, ch) == Some(s') || ClientStep(s, ch) == Some(s');
    if PreviewStep(s, ch) == Some(s') {
      PreviewLeavesCall(s, s', ch);
    } else {
      WindowClientStep(s, s', ch, deferred);
    }
  }

  lemma WindowClientStep(s: State, s': State, ch: Choice, deferred: bool)
    requires InWindowCall(s.c) && WindowFits(s, deferred) && ClientStep(s, ch) == Some(s')
    ensures WindowFits(s', deferred)
  {
    hide FlagAfter, CallFails;
  }

  /** The thread changes neither what is wanted nor the client's place, but to wake it. */
  lemma PreviewLeavesCall(s: State, s': State, ch: Choice)
    requires PreviewStep(s, ch) == Some(s')
    ensures s'.running == s.running && s'.deferred == s.deferred && (s'.c == SignalClient(s.c) || s'.c == s.c)
  {
    hide FlagAfter;
  }

  lemma {:induction false} WindowCallFits(run: seq<State>, j: nat, k: nat)
    requires Run(run) && j <= k < |run| && run[j].c.WindowTest?
    requires forall i | j <= i < k :: InWindowCall(run[i].c)
    requires InWindowCall(run[k].c) || run[k].c.Unlock? || run[k].c.LeftLocked?
    ensures WindowFits(run[k], run[j].running && run[j].deferred)
  {
    hide InWindowCall, Step;
    if j < k {
      assert InWindowCall(run[k - 1].c);
      WindowCallFits(run, j, k - 1);
      assert Step(run[k - 1], run[k]);
      hide WindowFits;
      WindowStepFits(run[k - 1], run[k], run[j].running && run[j].deferred);
    }
  }

  /** Exactly when a preview is still wanted after a window was set, or could not be set up: when it was deferred
      for want of one. A running preview is stopped, and not started again. */
  lemma WindowChangeKeepsPreviewIff(run: seq<State>, j: nat, k: nat)
    requires Run(run) && j < k < |run| && run[j].c.WindowTest? && (run[k].c.Unlock? || run[k].c.LeftLocked?)
    requires forall i | j <= i < k :: InWindowCall(run[i].c)
    ensures run[k].running <==> run[j].running && run[j].deferred
  {
    hide Run, InWindowCall;
    WindowCallFits(run, j, k);
  }

  // --------------------------------------------------------------- the camera that stays switched on

  predicate StopFits(s: State) {
    s.p.Announcing? || s.p.Blocking? || s.c.StopWoken? ==> !s.started
  }

  lemma PreviewKeepsStopFits(s: State, ch: Choice)
    requires StopFits(s) && PreviewStep(s, ch).Some?
    requires PreviewHolds(s.p) ==> !ClientHolds(s.c)
    requires s.c.StopWoken? ==> s.p.Blocking? || s.p.Parked?
    ensures StopFits(PreviewStep(s, ch).value)
  {
    hide FlagAfter, PreviewHolds, ClientHolds;
  }

  lemma ClientKeepsStopFits(s: State, ch: Choice)
    requires StopFits(s) && ClientStep(s, ch).Some?
    requires PreviewHolds(s.p) ==> !ClientHolds(s.c)
    ensures StopFits(ClientStep(s, ch).value)
  {
    hide CallFails, FlagAfter;
  }

  lemma StepKeepsStopFits(s: State, s': State)
    requires Invariant(s) && StopFits(s) && Step(s, s')
    ensures StopFits(s')
  {
    hide HeapFits, PreviewStep, ClientStep, StopFits;
    var ch :| PreviewStep(s, ch) == Some(s') || ClientStep(s, ch) == Some(s');
    if PreviewStep(s, ch) == Some(s') {
      PreviewKeepsStopFits(s, ch);
    } else {
      ClientKeepsStopFits(s, ch);
    }
  }

  lemma {:induction false} RunKeepsStopFits(run: seq<State>, k: nat)
    requires Run(run) && k < |run|
    ensures StopFits(run[k])
  {
    hide Invariant, PreviewStep, ClientStep;
    if k > 0 {
      RunKeepsStopFits(run, k - 1);
      RunKeeps(run, k - 1);
      assert Step(run[k - 1], run[k]);
      hide StopFits, Step;
      StepKeepsStopFits(run[k - 1], run[k]);
    }
  }

  /** Exactly when a stop leaves the camera on: when it found nothing to stop, the preview being off or
      deferred, while the camera was on. */
  lemma StopLeavesCameraOnIff(run: seq<State>, k: nat)
    requires Run(run) && k + 1 < |run| && !run[k].c.Stopped? && run[k + 1].c.Stopped?
    ensures run[k + 1].started <==>
      run[k].c.StopTest? && (!run[k].running || run[k].deferred) && run[k].started
  {
    RunKeeps(run, k);
    RunKeepsStopFits(run, k);
    var s, s' := run[k], run[k + 1];
    assert Step(s, s');
    hide Run, HeapFits;
  }

  function Last(run: seq<State>): State
    requires run != []
  {
    run[|run| - 1]
  }

  lemma ClientMoves(run: seq<State>, ch: Choice) returns (longer: seq<State>)
    requires Run(run) && ClientStep(Last(run), ch).Some?
    ensures Run(longer) && run < longer && |longer| == |run| + 1
    ensures Last(longer) == ClientStep(Last(run), ch).value
  {
    hide ClientStep, PreviewStep;
    longer := run + [ClientStep(Last(run), ch).value];
    forall k | 0 < k < |longer|
      ensures Step(longer[k - 1], longer[k])
    {
      if k < |run| {
        assert Step(run[k - 1], run[k]);
      }
    }
  }

  lemma PreviewMoves(run: seq<State>, ch: Choice) returns (longer: seq<State>)
    requires Run(run) && PreviewStep(Last(run), ch).Some?
    ensures Run(longer) && run < longer && |longer| == |run| + 1
    ensures Last(longer) == PreviewStep(Last(run), ch).value
  {
    hide ClientStep, PreviewStep;
    longer := run + [PreviewStep(Last(run), ch).value];
    forall k | 0 < k < |longer|
      ensures Step(longer[k - 1], longer[k])
    {
      if k < |run| {
        assert Step(run[k - 1], run[k]);
      }
    }
  }

  function Makes(call: Call, d: Driver): Choice {
    Choice(call, false, true, false, d)
  }

  const FRESH := State(Parked, Idle, Free, false, false, false, false, None, 0)
  const WAITING := State(Parked, Idle, Free, true, true, false, false, None, 0) // for a window
  const SWITCHED_ON := State(Parked, Idle, Free, true, true, true, true, None, 0)
  const READY := State(Parked, Idle, Free, false, false, true, false, None, 0) // with a window
  const SHOWING := State(Fetching, Idle, Free, true, false, true, true, Some(0), 1)

  lemma Begin() returns (run: seq<State>)
    ensures Run(run) && Last(run) == FRESH
  {
    run := [FRESH];
  }

  lemma StartsDeferred(run: seq<State>) returns (longer: seq<State>)
    requires Run(run) && Last(run) == FRESH
    ensures Run(longer) && run <= longer && Last(longer) == WAITING
  {
    hide Run;
    var ch := Makes(Start, Succeeds);
    longer := run;
    longer := ClientMoves(longer, ch);
    longer := ClientMoves(longer, ch);
    longer := ClientMoves(longer, ch);
    longer := ClientMoves(longer, ch);
  }

  lemma FailsSwitchedOn(run: seq<State>) returns (longer: seq<State>)
    requires Run(run) && Last(run) == WAITING
    ensures Run(longer) && run <= longer && Last(longer) == SWITCHED_ON
  {
    hide Run;
    var ch := Makes(Window, FailsOn);
    longer := run;
    longer := ClientMoves(longer, ch);
    longer := ClientMoves(longer, ch);
    longer := ClientMoves(longer, ch);
    longer := ClientMoves(longer, ch);
    longer := ClientMoves(longer, ch);
    longer := ClientMoves(longer, ch);
    longer := ClientMoves(longer, ch);
  }

  /** A stop can leave the camera on: a preview is started without a window, the window arrives, the camera
      fails after its stream went on, and the client stops the preview. */
  lemma CameraCanStayOn() returns (run: seq<State>)
    ensures Run(run) && Last(run).c == Stopped(Stop) && Last(run).started && Last(run).p.Parked?
  {
    hide Run;
    run := Begin();
    run := StartsDeferred(run);
    run := FailsSwitchedOn(run);
    run := ClientMoves(run, Makes(Stop, Succeeds));
    run := ClientMoves(run, Makes(Stop, Succeeds));
    run := ClientMoves(run, Makes(Stop, Succeeds));
  }

  lemma GetsWindow(run: seq<State>) returns (longer: seq<State>)
    requires Run(run) && Last(run) == FRESH
    ensures Run(longer) && run <= longer && Last(longer) == READY
  {
    hide Run;
    var ch := Makes(Window, Succeeds);
    longer := run;
    longer := ClientMoves(longer, ch);
    longer := ClientMoves(longer, ch);
    longer := ClientMoves(longer, ch);
    longer := ClientMoves(longer, ch);
    longer := ClientMoves(longer, ch);
    longer := ClientMoves(longer, ch);
  }

  lemma Starts(run: seq<State>) returns (longer: seq<State>)
    requires Run(run) && Last(run) == READY
    ensures Run(longer) && run <= longer && Last(longer) == SHOWING.(p := Woken)
  {
    hide Run;
    var ch := Makes(Start, Succeeds);
    longer := run;
    longer := ClientMoves(longer, ch);
    longer := ClientMoves(longer, ch);
    longer := ClientMoves(longer, ch);
    longer := ClientMoves(longer, ch);
    longer := ClientMoves(longer, ch);
    longer := ClientMoves(longer, ch);
    longer := ClientMoves(longer, ch);
    longer := ClientMoves(longer, ch);
  }

  lemma Shows(run: seq<State>) returns (longer: seq<State>)
    requires Run(run) && Last(run) == SHOWING.(p := Woken)
    ensures Run(longer) && run <= longer && Last(longer) == SHOWING
  {
    hide Run;
    var ch := Makes(Start, Succeeds);
    longer := run;
    longer := PreviewMoves(longer, ch);
    longer := PreviewMoves(longer, ch);
    longer := PreviewMoves(longer, ch);
  }

  lemma AsksToStop(run: seq<State>) returns (longer: seq<State>)
    requires Run(run) && Last(run) == SHOWING
    ensures Run(longer) && run <= longer && Last(longer) == SHOWING.(c := Waiting(Window), running := false)
  {
    hide Run;
    var ch := Makes(Window, Succeeds);
    longer := run;
    longer := ClientMoves(longer, ch);
    longer := ClientMoves(longer, ch);
    longer := ClientMoves(longer, ch);
    longer := ClientMoves(longer, ch);
    longer := ClientMoves(longer, ch);
    longer := ClientMoves(longer, ch);
  }

  lemma Stops(run: seq<State>) returns (longer: seq<State>)
    requires Run(run) && Last(run) == SHOWING.(c := Waiting(Window), running := false)
    ensures Run(longer) && run <= longer
    ensures Last(longer) == SHOWING.(p := Parked, c := StopWoken(Window), running := false, started := false)
  {
    hide Run;
    var ch := Makes(Window, Succeeds);
    longer := run;
    longer := PreviewMoves(longer, ch);
    longer := PreviewMoves(longer, ch);
    longer := PreviewMoves(longer, ch);
    longer := PreviewMoves(longer, ch);
    longer := PreviewMoves(longer, ch);
    longer := PreviewMoves(longer, ch);
    longer := PreviewMoves(longer, ch);
  }

  /** A running preview is lost: it shows frames in a window, and once setPreviewWindow has been called
      again it is off, with nobody left who would start it. */
  lemma PreviewCanBeLost() returns (run: seq<State>, k: nat)
    ensures Run(run) && k < |run| && run[k] == SHOWING
    ensures Last(run) == SHOWING.(p := Parked, running := false, started := false)
  {
    hide Run;
    run := Begin();
    run := GetsWindow(run);
    run := Starts(run);
    run := Shows(run);
    k := |run| - 1;
    run := AsksToStop(run);
    run := Stops(run);
    run := ClientMoves(run, Makes(Window, Succeeds));
    run := ClientMoves(run, Makes(Window, Succeeds));
    run := ClientMoves(run, Makes(Window, Succeeds));
    run := ClientMoves(run, Makes(Window, Succeeds));
    run := ClientMoves(run, Makes(Window, Succeeds));
  }

  // ------------------------------------------------------------------------------------ progress

  /** Steps the thread is away from telling a waiting client that it has stopped. */
  function Distance(p: PreviewPc): nat {
    match p
    case Unlocking => 9
    case Fetching => 8
    case Resetting => 7
    case Delivering => 6
    case Locking => 5
    case Woken => 4
    case Testing => 3
    case StoppingCamera => 2
    case Announcing => 1
    case _ => 0
  }

  /** While the client waits it is the thread that moves, and every step brings the answer nearer. */
  lemma WaitingStepApproaches(s: State, s': State)
    requires Invariant(s) && s.c.Waiting? && Step(s, s')
    ensures s'.c.StopWoken? || (s'.c == s.c && Distance(s'.p) < Distance(s.p))
  {
  }

  /** Every wait for the thread to stop ends: no run waits for more than eight steps. */
  lemma {:induction false} WaitEnds(run: seq<State>, from: nat, to: nat)
    requires Run(run) && from <= to < |run|
    requires forall k | from <= k <= to :: run[k].c.Waiting?
    ensures to - from + Distance(run[to].p) <= Distance(run[from].p) <= 8
    ensures to - from < 8
  {
    RunKeeps(run, from);
    RunKeeps(run, to);
    hide Invariant, Step;
    assert run[to].c.Waiting?;
    WaitingPlace(run[to]);
    WaitingPlace(run[from]);
    if from < to {
      WaitEnds(run, from, to - 1);
      RunKeeps(run, to - 1);
      assert run[to - 1].c.Waiting?;
      assert Step(run[to - 1], run[to]);
      WaitingStepApproaches(run[to - 1], run[to]);
    }
  }

  lemma WaitingPlace(s: State)
    requires Invariant(s) && s.c.Waiting?
    ensures 0 < Distance(s.p) <= 8
  {
  }

  /** Exactly when no step is left to take: when the client waits for the lock that it has itself not given back.
      While it waits for the thread instead, it is never left alone. */
  lemma NoStepLeftIff(run: seq<State>, k: nat, ch: Choice)
    requires Run(run) && k < |run|
    ensures PreviewStep(run[k], ch).None? && ClientStep(run[k], ch).None? <==> run[k].c.Stuck?
    ensures run[k].c.Waiting? ==> PreviewStep(run[k], ch).Some?
  {
    RunKeeps(run, k);
  }

  predicate Hung(c: ClientPc) {
    c.LeftLocked? || c.Stuck?
  }

  /** That comes about exactly through a window that cannot be set up: it leaves the lock taken, and from then on
      nothing moves any more but the window pointer. */
  lemma {:induction false} FailedSetupHangs(run: seq<State>, j: nat, k: nat)
    requires Run(run) && j <= k < |run| && run[j].c.LeftLocked?
    ensures Hung(run[k].c) && run[k].owner.Client? && run[k].p.Parked?
    ensures run[k].running == run[j].running && run[k].deferred == run[j].deferred && run[k].started == run[j].started
  {
    RunKeeps(run, k);
    if j < k {
      FailedSetupHangs(run, j, k - 1);
      assert Step(run[k - 1], run[k]);
      hide Run, HeapFits;
    }
  }

  lemma {:induction false} OnlyFailedSetupHangs(run: seq<State>, k: nat) returns (j: nat)
    requires Run(run) && k < |run| && Hung(run[k].c)
    ensures 0 < j <= k && run[j - 1].c.WindowSetup? && run[j].c.LeftLocked?
  {
    assert k > 0;
    assert Step(run[k - 1], run[k]);
    if Hung(run[k - 1].c) {
      j := OnlyFailedSetupHangs(run, k - 1);
    } else {
      HangBegins(run[k - 1], run[k]);
      j := k;
    }
  }

  lemma HangBegins(s: State, s': State)
    requires Step(s, s') && !Hung(s.c) && Hung(s'.c)
    ensures s.c.WindowSetup? && s'.c.LeftLocked?
  {
    hide PreviewStep, ClientStep, Hung;
    var ch :| PreviewStep(s, ch) == Some(s') || ClientStep(s, ch) == Some(s');
    if PreviewStep(s, ch) == Some(s') {
      PreviewLeavesCall(s, s', ch);
      assert false by { NotHungBySignal(s); }
    } else {
      ClientHangs(s, s', ch);
    }
  }

  lemma NotHungBySignal(s: State)
    requires !Hung(s.c)
    ensures !Hung(SignalClient(s.c))
  {
  }

  lemma ClientHangs(s: State, s': State, ch: Choice)
    requires ClientStep(s, ch) == Some(s') && !Hung(s.c) && Hung(s'.c)
    ensures s.c.WindowSetup? && s'.c.LeftLocked?
  {
    hide FlagAfter, CallFails, SignalPreview;
  }

  /** A run in which a client that sets a window which cannot be set up, and then starts the preview, is stuck. */
  lemma ClientCanHang() returns (run: seq<State>)
    ensures Run(run) && Last(run).c.Stuck? && Last(run).p.Parked?
  {
    hide Run;
    var failing := Makes(Window, Succeeds).(setup := false);
    run := Begin();
    run := ClientMoves(run, failing);
    run := ClientMoves(run, failing);
    run := ClientMoves(run, failing);
    run := ClientMoves(run, failing);
    run := ClientMoves(run, Makes(Start, Succeeds));
  }
}
