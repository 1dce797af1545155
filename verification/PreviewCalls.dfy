/** What the client's calls come to, over runs that record whose step each one is: which window is in use, how a
    start and a change of window end, that every heap is a new one, and that frames keep coming. */
module PreviewCalls {
  import opened Options
  import opened PreviewHandshake

  datatype Move = ByPreview(ch: Choice) | ByClient(ch: Choice)

  function After(s: State, m: Move): Option<State> {
    match m
    case ByPreview(ch) => PreviewStep(s, ch)
    case ByClient(ch) => ClientStep(s, ch)
  }

  ghost predicate Course(run: seq<State>, moves: seq<Move>) {
    && |run| == |moves| + 1 && Initial(run[0])
    && forall k | 0 <= k < |moves| :: After(run[k], moves[k]) == Some(run[k + 1])
  }

  lemma CourseStep(run: seq<State>, moves: seq<Move>, k: nat)
    requires Course(run, moves) && k < |moves|
    ensures After(run[k], moves[k]) == Some(run[k + 1]) && Step(run[k], run[k + 1])
  {
    hide PreviewStep, ClientStep;
    var ch := moves[k].ch;
    assert PreviewStep(run[k], ch) == Some(run[k + 1]) || ClientStep(run[k], ch) == Some(run[k + 1]);
  }

  lemma CourseIsRun(run: seq<State>, moves: seq<Move>)
    requires Course(run, moves)
    ensures Run(run)
  {
    hide PreviewStep, ClientStep, Initial, Step, After;
    forall k | 0 < k < |run|
      ensures Step(run[k - 1], run[k])
    {
      CourseStep(run, moves, k - 1);
    }
  }

  /** A run in which no deferred start leaves the camera on. */
  ghost predicate CleanCourse(run: seq<State>, moves: seq<Move>) {
    && Course(run, moves)
    && forall k | 0 <= k < |moves| :: moves[k].ByClient? ==> !LeavesCameraOn(run[k], moves[k].ch)
  }

  lemma CleanCourseIsCleanRun(run: seq<State>, moves: seq<Move>)
    requires CleanCourse(run, moves)
    ensures CleanRun(run)
  {
    hide PreviewStep, ClientStep, Initial, LeavesCameraOn;
    forall k | 0 < k < |run|
      ensures CleanStep(run[k - 1], run[k])
    {
      var ch := moves[k - 1].ch;
      assert After(run[k - 1], moves[k - 1]) == Some(run[k]);
      assert PreviewStep(run[k - 1], ch) == Some(run[k])
             || (ClientStep(run[k - 1], ch) == Some(run[k]) && !LeavesCameraOn(run[k - 1], ch));
    }
  }

  // ----------------------------------------------------------------------------- the window in use

  /** The k-th step is a call of setPreviewWindow. */
  predicate SetsWindow(s: State, m: Move) {
    m.ByClient? && (s.c.Idle? || s.c.LeftLocked?) && m.ch.call.Window?
  }

  /** Whether the last call of setPreviewWindow among the first n steps gave a window, or NULL. */
  ghost predicate LastGiven(run: seq<State>, moves: seq<Move>, n: nat)
    requires n <= |moves| < |run|
  {
    if n == 0 then run[0].window
    else if SetsWindow(run[n - 1], moves[n - 1]) then !moves[n - 1].ch.toNull
    else LastGiven(run, moves, n - 1)
  }

  lemma WindowStep(s: State, m: Move)
    requires After(s, m).Some?
    ensures After(s, m).value.window == if SetsWindow(s, m) then !m.ch.toNull else s.window
  {
    hide FlagAfter, CallFails;
  }

  /** The window in use is the one the last call of setPreviewWindow gave, NULL included. */
  lemma {:induction false} WindowIsLastGiven(run: seq<State>, moves: seq<Move>, n: nat)
    requires Course(run, moves) && n <= |moves|
    ensures run[n].window == LastGiven(run, moves, n)
  {
    hide After, SetsWindow, Initial;
    if n > 0 {
      WindowIsLastGiven(run, moves, n - 1);
      assert After(run[n - 1], moves[n - 1]) == Some(run[n]);
      WindowStep(run[n - 1], moves[n - 1]);
    }
  }

  // ------------------------------------------------------------------------------ how calls end

  /** The client is inside startPreview, past its lock. */
  predicate InStartCall(c: ClientPc) {
    c.StartTest? || c == DriverStart(Start) || c == HeapFree(Start) || c == HeapAlloc(Start) || c == Wake(Start)
  }

  /** What startPreview has made of the state s0 it found by the time it is at s: nothing if the preview runs
      already; without a window only a wish; with one a started camera, a new heap and a woken thread, unless
      the camera fails. */
  predicate StartFits(s0: State, s: State) {
    && s.window == s0.window
    && match s.c
       case StartTest =>
         && s.running == s0.running && s.deferred == s0.deferred && SameHeap(s0, s)
         && (!s0.running ==> s.started == s0.started)
       case DriverStart(_) =>
         !s0.running && s0.window && s.running && !s.deferred && SameHeap(s0, s) && s.started == s0.started
       case HeapFree(_) => !s0.running && s0.window && s.running && !s.deferred && s.started && SameHeap(s0, s)
       case HeapAlloc(_) => !s0.running && s0.window && s.running && !s.deferred && s.started && s.heaps == s0.heaps
       case Wake(_) => !s0.running && s0.window && s.running && !s.deferred && s.started && NewHeap(s0, s)
       case Unlock =>
         if s0.running then s.running && s.deferred == s0.deferred && SameHeap(s0, s)
         else
           && s.running && s.deferred == !s0.window
           && (if s.p.Parked? then SameHeap(s0, s) && (s0.window ==> !s0.started)
               else s0.window && s.p.Woken? && s.started && NewHeap(s0, s))
       case _ => false
  }

  predicate SameHeap(s0: State, s: State) {
    s.heap == s0.heap && s.heaps == s0.heaps
  }

  predicate NewHeap(s0: State, s: State) {
    s.heap == Some(s0.heaps) && s.heaps == s0.heaps + 1
  }

  /** The thread changes nothing that a call has set. */
  lemma ThreadLeavesCall(s: State, ch: Choice)
    requires PreviewStep(s, ch).Some?
    ensures var s' := PreviewStep(s, ch).value;
            && s'.running == s.running && s'.deferred == s.deferred && s'.window == s.window && SameHeap(s, s')
            && !s.p.Parked?
            && (s'.c == s.c || (s.c.Waiting? && s'.c == StopWoken(s.c.call)))
  {
    hide FlagAfter;
  }

  lemma StartClientStep(s0: State, s: State, ch: Choice)
    requires StartFits(s0, s) && InStartCall(s.c) && ClientStep(s, ch).Some?
    requires s.running && !s.deferred && !s.c.StartTest? ==> s.p.Parked?
    requires s.c.StartTest? && !s.running ==> s.p.Parked?
    ensures StartFits(s0, ClientStep(s, ch).value)
  {
  }

  lemma StartPreviewStep(s0: State, s: State, ch: Choice)
    requires StartFits(s0, s) && InStartCall(s.c) && PreviewStep(s, ch).Some?
    requires !s.c.StartTest? || !s.running ==> s.p.Parked?
    ensures StartFits(s0, PreviewStep(s, ch).value)
  {
    hide FlagAfter;
  }

  lemma StartPlaces(s: State)
    requires Invariant(s) && InStartCall(s.c)
    ensures !s.c.StartTest? || !s.running ==> s.p.Parked?
  {
  }

  lemma {:induction false} StartCallFits(run: seq<State>, moves: seq<Move>, j: nat, k: nat)
    requires Course(run, moves) && j <= k < |run| && run[j].c.StartTest?
    requires forall i | j <= i < k :: InStartCall(run[i].c)
    ensures StartFits(run[j], run[k])
  {
    if j < k {
      StartCallFits(run, moves, j, k - 1);
      CourseIsRun(run, moves);
      CourseStep(run, moves, k - 1);
      hide Course, Run, StartFits, InStartCall, PreviewStep, ClientStep;
      assert InStartCall(run[k - 1].c);
      RunKeeps(run, k - 1);
      StartPlaces(run[k - 1]);
      match moves[k - 1]
      case ByPreview(ch) => StartPreviewStep(run[j], run[k - 1], ch);
      case ByClient(ch) => StartClientStep(run[j], run[k - 1], ch);
    }
  }

  /** How a start ends, by the window given last: a preview that runs already is left alone; without a window the
      start is deferred, no heap is made and the thread stays parked; with one it is not, and the thread is woken
      with the camera on and a new heap, or stays parked because the camera, which was off, failed. */
  lemma StartOutcome(run: seq<State>, moves: seq<Move>, j: nat, k: nat)
    requires Course(run, moves) && j < k < |run| && run[j].c.StartTest? && run[k].c.Unlock?
    requires forall i | j <= i < k :: InStartCall(run[i].c)
    ensures var s0, s, given := run[j], run[k], LastGiven(run, moves, j);
            && s.running && s.window == s0.window == given
            && if s0.running then s.deferred == s0.deferred && SameHeap(s0, s)
               else
                 && s.deferred == !given
                 && if s.p.Parked? then SameHeap(s0, s) && (given ==> !s0.started)
                    else given && s.p.Woken? && s.started && NewHeap(s0, s)
  {
    WindowIsLastGiven(run, moves, j);
    hide Course, InStartCall;
    StartCallFits(run, moves, j, k);
  }

  /** A start deferred for want of a window leaves the camera off. */
  lemma DeferredStartLeavesCameraOff(run: seq<State>, moves: seq<Move>, j: nat, k: nat)
    requires CleanCourse(run, moves) && j < k < |run| && run[j].c.StartTest? && run[k].c.Unlock?
    requires forall i | j <= i < k :: InStartCall(run[i].c)
    requires !run[j].running && !LastGiven(run, moves, j)
    ensures run[k].running && run[k].deferred && run[k].p.Parked? && !run[k].started && SameHeap(run[j], run[k])
  {
    StartOutcome(run, moves, j, k);
    CleanCourseIsCleanRun(run, moves);
    CleanRunKeeps(run, k);
  }

  /** The places at which the client acts for a window. */
  predicate NeedsWindow(c: ClientPc) {
    || c == Lock(Window) || InWindowCall(c)
    || c.DriverStart? || c.HeapFree? || c.HeapAlloc? || c.Wake?
  }

  lemma NeedsWindowStep(s: State, m: Move)
    requires After(s, m).Some? && (NeedsWindow(s.c) ==> s.window)
    ensures NeedsWindow(After(s, m).value.c) ==> After(s, m).value.window
  {
    hide PreviewStep, ClientStep, NeedsWindow, InStart;
    match m
    case ByPreview(ch) => NeedsWindowPreviewStep(s, ch);
    case ByClient(ch) => if InStart(s.c) { NeedsWindowStartStep(s, ch); } else { NeedsWindowStopStep(s, ch); }
  }

  lemma NeedsWindowPreviewStep(s: State, ch: Choice)
    requires PreviewStep(s, ch).Some? && (NeedsWindow(s.c) ==> s.window)
    ensures NeedsWindow(PreviewStep(s, ch).value.c) ==> PreviewStep(s, ch).value.window
  {
    hide PreviewStep;
    ThreadLeavesCall(s, ch);
  }

  lemma NeedsWindowStartStep(s: State, ch: Choice)
    requires InStart(s.c) && ClientStep(s, ch).Some? && (NeedsWindow(s.c) ==> s.window)
    ensures NeedsWindow(ClientStep(s, ch).value.c) ==> ClientStep(s, ch).value.window
  {
    hide FlagAfter, CallFails, SignalPreview;
  }

  lemma NeedsWindowStopStep(s: State, ch: Choice)
    requires !InStart(s.c) && ClientStep(s, ch).Some? && (NeedsWindow(s.c) ==> s.window)
    ensures NeedsWindow(ClientStep(s, ch).value.c) ==> ClientStep(s, ch).value.window
  {
    hide FlagAfter, CallFails, SignalPreview;
  }

  /** In no run is the camera started for a preview while the window given last is NULL. */
  lemma {:induction false} CameraStartsWithWindow(run: seq<State>, moves: seq<Move>, k: nat)
    requires Course(run, moves) && k < |run|
    ensures NeedsWindow(run[k].c) ==> run[k].window && LastGiven(run, moves, k)
    ensures run[k].c.DriverStart? ==> LastGiven(run, moves, k)
  {
    hide After, Initial, LastGiven, InWindowCall;
    WindowIsLastGiven(run, moves, k);
    if k > 0 {
      CameraStartsWithWindow(run, moves, k - 1);
      assert After(run[k - 1], moves[k - 1]) == Some(run[k]);
      hide NeedsWindow;
      NeedsWindowStep(run[k - 1], moves[k - 1]);
    } else {
      IdleNeedsNone(run[0]);
    }
    assert run[k].c.DriverStart? ==> NeedsWindow(run[k].c) by { StartNeedsWindow(run[k].c); }
  }

  lemma IdleNeedsNone(s: State)
    requires Initial(s)
    ensures !NeedsWindow(s.c)
  {
  }

  lemma StartNeedsWindow(c: ClientPc)
    ensures c.DriverStart? ==> NeedsWindow(c)
  {
  }

  /** The client is inside stopPreview or setPreviewWindow, past its lock. */
  predicate InOtherCall(c: ClientPc) {
    || InWindowCall(c)
    || c == StopTest(Stop) || c == StopSignal(Stop) || c == StopBlock(Stop) || c == Waiting(Stop)
    || c == StopWoken(Stop) || c == Stopped(Stop)
  }

  /** What these calls have made of the state s0 they found: a preview that was deferred and now has a window is
      started, or still deferred if the camera fails; any other preview is off, and has its heap. */
  predicate OtherFits(s0: State, s: State) {
    var resumes := s0.c.WindowTest? && s0.running && s0.deferred;
    && (s.deferred == s0.deferred || (resumes && s.c.Unlock?))
    && match s.c
       case WindowTest =>
         && s0.c.WindowTest? && s.running == s0.running && s.deferred == s0.deferred && SameHeap(s0, s)
         && (resumes ==> s.started == s0.started)
       case StopTest(call) =>
         !call.Start? && !resumes && s.running == s0.running && s.deferred == s0.deferred && SameHeap(s0, s)
       case DriverStart(_) => resumes && s.running && s.deferred && SameHeap(s0, s) && s.started == s0.started
       case HeapFree(_) => resumes && s.running && s.deferred && s.started && SameHeap(s0, s)
       case HeapAlloc(_) => resumes && s.running && s.deferred && s.started && s.heaps == s0.heaps
       case Wake(_) => resumes && s.running && s.deferred && s.started && NewHeap(s0, s)
       case WindowSetup =>
         SameHeap(s0, s) && s.running == resumes && (resumes ==> s.deferred && s.started == s0.started)
       case ResumeTest =>
         SameHeap(s0, s) && s.running == resumes && (resumes ==> s.deferred && s.started == s0.started)
       case LeftLocked => SameHeap(s0, s) && s.running == resumes && (resumes ==> s.deferred)
       case Unlock =>
         && s.running == resumes
         && if resumes && !s.deferred then s.p.Woken? && s.started && NewHeap(s0, s)
            else SameHeap(s0, s) && (resumes ==> !s0.started)
       case _ => !resumes && !s.running && SameHeap(s0, s)
  }

  lemma OtherClientStep(s0: State, s: State, ch: Choice)
    requires OtherFits(s0, s) && InOtherCall(s.c) && ClientStep(s, ch).Some?
    requires s.c.Wake? ==> s.p.Parked?
    requires s.c.StopTest? && s.c.call.Window? ==> s.running && !s.deferred
    ensures OtherFits(s0, ClientStep(s, ch).value)
  {
    hide OtherFits, ClientStep, InStart, InOtherCall;
    if InStart(s.c) { OtherStartStep(s0, s, ch); } else { OtherStopStep(s0, s, ch); }
  }

  lemma OtherStartStep(s0: State, s: State, ch: Choice)
    requires OtherFits(s0, s) && InStart(s.c) && InOtherCall(s.c) && ClientStep(s, ch).Some?
    requires s.c.Wake? ==> s.p.Parked?
    ensures OtherFits(s0, ClientStep(s, ch).value)
  {
  }

  lemma OtherStopStep(s0: State, s: State, ch: Choice)
    requires OtherFits(s0, s) && !InStart(s.c) && InOtherCall(s.c) && ClientStep(s, ch).Some?
    requires s.c.StopTest? && s.c.call.Window? ==> s.running && !s.deferred
    ensures OtherFits(s0, ClientStep(s, ch).value)
  {
    hide FlagAfter, CallFails;
  }

  lemma OtherPreviewStep(s0: State, s: State, ch: Choice)
    requires OtherFits(s0, s) && InOtherCall(s.c) && PreviewStep(s, ch).Some?
    requires s.c.HeapFree? || s.c.HeapAlloc? || s.c.Wake? || (s.running && s.deferred) ==> s.p.Parked?
    ensures OtherFits(s0, PreviewStep(s, ch).value)
  {
    hide PreviewStep;
    ThreadLeavesCall(s, ch);
  }

  lemma OtherPlaces(s: State)
    requires Invariant(s)
    ensures s.c.HeapFree? || s.c.HeapAlloc? || s.c.Wake? || (s.running && s.deferred) ==> s.p.Parked?
    ensures s.c.StopTest? && s.c.call.Window? ==> s.running && !s.deferred
  {
  }

  lemma OtherBegins(s: State)
    requires s.c.WindowTest? || s.c == StopTest(Stop)
    ensures OtherFits(s, s)
  {
  }

  lemma OtherStep(s0: State, s: State, m: Move, s': State)
    requires OtherFits(s0, s) && InOtherCall(s.c) && After(s, m) == Some(s')
    requires s.c.HeapFree? || s.c.HeapAlloc? || s.c.Wake? || (s.running && s.deferred) ==> s.p.Parked?
    requires s.c.StopTest? && s.c.call.Window? ==> s.running && !s.deferred
    ensures OtherFits(s0, s')
  {
    hide OtherFits, PreviewStep, ClientStep, InOtherCall;
    match m
    case ByPreview(ch) => OtherPreviewStep(s0, s, ch);
    case ByClient(ch) => OtherClientStep(s0, s, ch);
  }

  lemma {:induction false} OtherCallFits(run: seq<State>, moves: seq<Move>, j: nat, k: nat)
    requires Course(run, moves) && j <= k < |run| && (run[j].c.WindowTest? || run[j].c == StopTest(Stop))
    requires forall i | j <= i < k :: InOtherCall(run[i].c)
    ensures OtherFits(run[j], run[k])
  {
    hide After, Initial, Run, OtherFits, PreviewStep, ClientStep, Invariant, InOtherCall;
    if j < k {
      OtherCallFits(run, moves, j, k - 1);
      CourseIsRun(run, moves);
      RunKeeps(run, k - 1);
      OtherPlaces(run[k - 1]);
      assert InOtherCall(run[k - 1].c);
      OtherStep(run[j], run[k - 1], moves[k - 1], run[k]);
    } else {
      OtherBegins(run[j]);
    }
  }

  /** How a stop and a change of window end: a deferred preview that gets its window is started with a new heap
      and the thread woken, unless the camera fails and it stays deferred; any other preview is off. */
  lemma StopAndWindowOutcome(run: seq<State>, moves: seq<Move>, j: nat, k: nat)
    requires Course(run, moves) && j < k < |run| && (run[j].c.WindowTest? || run[j].c == StopTest(Stop))
    requires run[k].c.Unlock? && forall i | j <= i < k :: InOtherCall(run[i].c)
    ensures var s0, s := run[j], run[k];
            if s0.c.WindowTest? && s0.running && s0.deferred then
              && s.running
              && if s.deferred then SameHeap(s0, s) && !s0.started else s.p.Woken? && s.started && NewHeap(s0, s)
            else !s.running && s.deferred == s0.deferred && SameHeap(s0, s)
  {
    hide Course, InOtherCall;
    OtherCallFits(run, moves, j, k);
  }

  // ---------------------------------------------------------------------------------- new heaps

  lemma {:induction false} HeapsGrow(run: seq<State>, moves: seq<Move>, j: nat, k: nat)
    requires Course(run, moves) && j <= k < |run|
    ensures run[j].heaps <= run[k].heaps && (run[k].heap.Some? ==> run[k].heap.value < run[k].heaps)
    decreases k
  {
    hide After, Initial;
    if k == 0 {
      NoHeapYet(run[0]);
    } else {
      HeapsGrow(run, moves, if j < k then j else k - 1, k - 1);
      assert After(run[k - 1], moves[k - 1]) == Some(run[k]);
      HeapsStep(run[k - 1], moves[k - 1]);
    }
  }

  lemma NoHeapYet(s: State)
    requires Initial(s)
    ensures s.heap.None?
  {
  }

  lemma HeapsStep(s: State, m: Move)
    requires After(s, m).Some?
    ensures var s' := After(s, m).value;
            && s.heaps <= s'.heaps
            && (s'.heap == s.heap || s'.heap.None? || (s'.heap == Some(s.heaps) && s.heaps < s'.heaps))
            && (s'.heaps > s.heaps ==> s'.heap == Some(s.heaps))
  {
    hide PreviewStep, ClientStep, InStart;
    match m
    case ByPreview(ch) => ThreadLeavesCall(s, ch);
    case ByClient(ch) => if InStart(s.c) { HeapsStartStep(s, ch); } else { HeapsStopStep(s, ch); }
  }

  lemma HeapsStartStep(s: State, ch: Choice)
    requires InStart(s.c) && ClientStep(s, ch).Some?
    ensures var s' := ClientStep(s, ch).value;
            SameHeap(s, s') || NewHeap(s, s') || (s'.heap.None? && s'.heaps == s.heaps)
  {
    hide FlagAfter, CallFails, SignalPreview;
  }

  lemma HeapsStopStep(s: State, ch: Choice)
    requires !InStart(s.c) && ClientStep(s, ch).Some?
    ensures SameHeap(s, ClientStep(s, ch).value)
  {
    hide FlagAfter, CallFails, SignalPreview;
  }

  /** A heap that a start makes is none that was there at any time before. */
  lemma HeapIsNew(run: seq<State>, moves: seq<Move>, j: nat, k: nat)
    requires Course(run, moves) && j <= k && k + 1 < |run| && run[k + 1].heaps > run[k].heaps
    ensures run[k + 1].heap.Some? && run[j].heap != run[k + 1].heap
  {
    hide After, Initial;
    HeapsGrow(run, moves, j, k);
    HeapsGrow(run, moves, j, j);
    assert After(run[k], moves[k]) == Some(run[k + 1]);
    HeapsStep(run[k], moves[k]);
  }

  // ---------------------------------------------------------------------------- frames keep coming

  /** Steps the thread is away from the end of a frame, while the preview runs. */
  function ToFrame(p: PreviewPc): nat {
    match p
    case Woken => 6
    case Locking => 6
    case Testing => 5
    case Unlocking => 4
    case Fetching => 3
    case Resetting => 2
    case Delivering => 1
    case _ => 7
  }

  /** Steps of the preview thread between two states. */
  ghost function ThreadSteps(moves: seq<Move>, j: nat, k: nat): nat
    requires j <= k <= |moves|
  {
    if j == k then 0 else ThreadSteps(moves, j, k - 1) + if moves[k - 1].ByPreview? then 1 else 0
  }

  lemma FrameStep(s: State, m: Move)
    requires Invariant(s) && After(s, m).Some? && s.running && !s.deferred && !s.p.Delivering?
    ensures var s' := After(s, m).value;
            if m.ByPreview? then ToFrame(s'.p) < ToFrame(s.p) else ToFrame(s'.p) <= ToFrame(s.p)
  {
    hide FlagAfter, CallFails;
  }

  /** While a preview runs, the thread is never more than six of its own steps away from a frame it hands on,
      whatever the client does between. */
  lemma {:induction false} FramesKeepComing(run: seq<State>, moves: seq<Move>, j: nat, k: nat)
    requires Course(run, moves) && j <= k < |run|
    requires forall i | j <= i < k :: run[i].running && !run[i].deferred && !run[i].p.Delivering?
    ensures ThreadSteps(moves, j, k) + ToFrame(run[k].p) <= ToFrame(run[j].p) <= 7
    ensures ThreadSteps(moves, j, k) <= 6
  {
    hide After, Initial, Invariant, Run, ToFrame;
    FrameIsAhead(run[k].p);
    if j < k {
      FramesKeepComing(run, moves, j, k - 1);
      CourseIsRun(run, moves);
      RunKeeps(run, k - 1);
      assert run[k - 1].running && !run[k - 1].deferred && !run[k - 1].p.Delivering?;
      assert After(run[k - 1], moves[k - 1]) == Some(run[k]);
      FrameStep(run[k - 1], moves[k - 1]);
    }
  }

  /** How a frame is come by: handed on at once from a camera that is on and delivers; otherwise the camera is
      switched off and reset, and is on afterwards exactly if the driver starts it, or fails only after that. */
  lemma FrameOutcome(run: seq<State>, moves: seq<Move>, k: nat)
    requires Course(run, moves) && k < |moves| && moves[k].ByPreview?
    ensures var s, s', ch := run[k], run[k + 1], moves[k].ch;
            && (s.p.Fetching? ==>
                  if s.started && !ch.stalled then s' == s.(p := Delivering)
                  else s'.p.Resetting? && !s'.started)
            && (s.p.Resetting? ==> s'.p.Delivering? && (s'.started <==> s.started || !ch.driver.FailsOff?))
            && (s.p.Delivering? ==> s' == s.(p := Locking))
  {
    hide Initial, ClientStep;
    assert After(run[k], moves[k]) == Some(run[k + 1]);
  }

  lemma FrameIsAhead(p: PreviewPc)
    ensures 1 <= ToFrame(p) <= 7
  {
  }
}
