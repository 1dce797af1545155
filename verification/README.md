# Verification of the Galaxy Tab 7 device code

A Dafny model of the five stateful parts of this device tree, and proofs about it: the audio HAL
(`libaudio`), the camera HAL (`libcamera`), the charger (`charger`), and the update script (`rootdir`).
`dafny verify dfyconfig.toml` checks everything.

## What is modelled

**Audio HAL.** `AudioHandles` has the shared PCM and mixer handles with their counts, and the streams that use
them, once as functions on values and once as classes whose methods are proved to compute those functions.
`AudioProtocol` makes every operation (`setMode`, `setMicMute`, `write`, `read`, `standby`, `setParameters`,
opening and closing streams) a program of single lock operations and critical-section segments, run by any
number of threads in any interleaving over any number of streams. `AudioSafety` proves lock order, exclusion,
absence of deadlock, and that the drop, retake and recheck of `mStandbyCnt` is sound. `AudioConservation`
proves that the counts are the users, over all runs; `AudioDoubleRead` and `AudioFailedCall` have, step by
step, the runs that show why its two conditions are needed. `AudioOutcomes` says what every step of every run
does to the streams, and that a stream which plays or captures has its device open; `AudioAlone` says what a
whole operation does when no other thread comes between.

**Capture.** `CaptureBuffer` is the simple form: a FIFO of driver periods, and a queue in front of a
pre-processor. `CaptureStream` is the object with its arrays, indices, growing buffer and overlapping shift,
proved to compute the simple form. `CaptureEffects` says what the pre-processors are given and what becomes of
their answers, over any number of passes and calls.

**Camera.** `Demux` and `DemuxEndings` read interleaved JPEG and YUV data; `PixelMaps`, `PixelScale` and `PreviewFrame` convert
pixel layouts; `PreviewHandshake` is the preview thread and a client, step by step over the lock and its two
condition variables, and `PreviewCalls` what its calls come to; `RecordBuffers`, `RecordOutcomes` and
`RecordCamera` track who owns which V4L2 buffer; `FocusArea` parses and prints an area.

**Charger.** `ChargerScreen`, `ChargerRuns` and `ChargerLoop` are the animation, the keys and the timed loop,
`ChargerFilm` the pictures it shows, `ChargerKeys` what keys and supplies come to over whole runs; `LogChunks` is the replay of the last kernel log.

**Updater.** `Updater`, `UpdaterOutcomes` and `UpdaterScript` are the script over any sequence of runs and reboots;
`SampleRate` belongs to the audio HAL and is the rate lookup.

## What the proofs found

- `read()` does not look at its standby flag again after it has let go of its own lock
  (libaudio/AudioHardware.cpp:1817-1839). With two readers on one input it can open the device twice:
  `AudioDoubleRead.TwoReadersBreakTheBalance` is such a run, `AudioConservation.ReopenedInputBalance` says
  exactly when an opening keeps the counts right, and `AudioConservation.ReferencesAreConserved` asks for one
  reader per input.
- `setMode` ignores the results of its opens (libaudio/AudioHardware.cpp:408-409). The counts survive a change
  of mode exactly when those opens succeed (`AudioConservation.ApplyModeBalanced`); if they fail, an output
  that is opened while the end of the call looks for streams is left with a mixer the driver has closed
  (`AudioFailedCall.FailedCallOpenLeavesDeadHandle`).
- The rate lookup subtracts unsigned numbers. For requests so far above the table that the difference wraps it
  stops at the first entry; `SampleRate.GetInputSampleRate` gives the exact limit and
  `SampleRate.FarRequestsMissNearest` such a request.
- `getPreview` gives up on the reset of a stalled camera when the input has a name, that is when the driver
  call succeeded (libcamera/SecCamera.cpp:1003-1004). So a stalled preview never restarts
  (`RecordBuffers.StallEndsPreview`); `RecordBuffers.ResetRestartsIff` says exactly when one would. A restart
  that does fail is reported as frame 0 (`RecordBuffers.FrameLeavesPreviewWhole`).
- If a deferred preview start fails after the stream went on, a later `stopPreview` leaves the camera on
  (`PreviewHandshake.StopLeavesCameraOnIff`, `PreviewHandshake.CameraCanStayOn`).
- `setPreviewWindow` returns with the preview lock taken when the window cannot be set up
  (libcamera/SecCameraHWInterface.cpp:390-425). From then on nothing moves but the window pointer
  (`PreviewHandshake.FailedSetupHangs`), that is the only way in which no step is left
  (`PreviewHandshake.NoStepLeftIff`, `PreviewHandshake.OnlyFailedSetupHangs`), and
  `PreviewHandshake.ClientCanHang` is a run in which it happens.
- `setPreviewWindow` over a running preview stops it and does not start it again:
  `PreviewHandshake.WindowChangeKeepsPreviewIff` says exactly which previews survive, and
  `PreviewHandshake.PreviewCanBeLost` is a run in which one that shows frames does not.
- `startRecording` always allocates a new heap. Ownership of the recorded frames survives it exactly when the
  client holds none (`RecordBuffers.StartKeepsOwnedIff`, and `RecordBuffers.HeldSlotCanBeLost` for a session
  at which it does not). A frame is lost exactly when the driver gives no addresses for it
  (`RecordBuffers.FrameKeepsOwnedIff`, `RecordBuffers.FrameCanBeLost`). A stop the driver refuses leaves a
  recording that counts as running and is not (`RecordBuffers.StopKeepsOwnedIff`).
- A key deadline left from an earlier press hides a later one: `ChargerRuns.DeadlineSetIff` says exactly when,
  `ChargerRuns.StaleCheckHidesPress` is a run from the start of the charger.
- The log replay prints each chunk as a C string, so it is whole exactly when the log holds no NUL
  (`LogChunks.PrintedWhole`, `LogChunks.NulLogIsNotWhole`).
- If `restore_efs` fails, `omni.cfg` is already gone and the install the user agreed to is lost:
  `Updater.PendingInstallKeptIff` says exactly when a pending install is kept or carried out,
  `Updater.InstallCanBeLost` is a course of events in which it is not.
- `decodeInterleaveData` reads the byte before its JPEG buffer when the data holds no JPEG at all
  (libcamera/SecCameraHWInterface.cpp:1364-1370); the model answers `OutOfBounds`
  (`Demux.PaddingAloneIsOutOfBounds`).
- For sizes that are not even, the two steps of a preview frame can disagree on where the V plane starts: the
  copy reads it behind the rows of U, the conversion at a quarter of the size. `PreviewFrame.StepsAgreeIff`
  says when they agree, `PreviewFrame.OddStepsDisagree` is a size for which they do not.

## Model

| member | source | states |
|---|---|---|
| AudioHandles.OpenPcmSound | libaudio/AudioHardware.cpp:778-814 | whatever the driver answers, count 0 means no handle and opens and closes alternate in the driver trace |
| AudioHandles.OpenMixerSound | libaudio/AudioHardware.cpp:832-851 | the same for the mixer |
| AudioHandles.CloseSharedSound | libaudio/AudioHardware.cpp:816-830 | the same for a close, which does nothing at count 0 |
| AudioHandles.ClosedStaysDead | libaudio/AudioHardware.cpp:816-867 | however the handle is used from the last close on, what was closed is not handed out again (objects of the driver being numbered, not addressed) |
| AudioHandles.AudioHardware.OpenPcmOut | libaudio/AudioHardware.cpp:778-814 | the method computes the function the protocol uses |
| AudioHandles.AudioHardware.ClosePcmOut | libaudio/AudioHardware.cpp:816-830 | the method computes the function the protocol uses |
| AudioHandles.AudioHardware.OpenMixerRef | libaudio/AudioHardware.cpp:832-851 | the method computes the function the protocol uses |
| AudioHandles.AudioHardware.CloseMixerRef | libaudio/AudioHardware.cpp:853-867 | the method computes the function the protocol uses |
| AudioHandles.AudioHardware.ApplyMode | libaudio/AudioHardware.cpp:385-441 | entering and leaving a call puts the streams found into standby, counted and without handles, and computes the function; otherwise nothing changes |
| AudioHandles.AudioStreamOut.Open | libaudio/AudioHardware.cpp:1282-1307 | output open_l, stream and shared handles |
| AudioHandles.AudioStreamOut.Close | libaudio/AudioHardware.cpp:1269-1280 | output close_l |
| AudioHandles.AudioStreamOut.DoStandby | libaudio/AudioHardware.cpp:1252-1267 | output doStandby_l, which counts every standby |
| AudioHandles.AudioStreamIn.Open | libaudio/AudioHardware.cpp:1965-2022 | input open_l |
| AudioHandles.AudioStreamIn.Close | libaudio/AudioHardware.cpp:1942-1963 | input close_l |
| AudioHandles.AudioStreamIn.DoStandby | libaudio/AudioHardware.cpp:1913-1940 | input doStandby_l |
| AudioSafety.LockDiscipline | libaudio/AudioHardware.cpp:345-381 | every lock taken ranks above all locks held, in the order output, input, hardware, and only held locks are dropped |
| AudioSafety.BeliefIsStable | libaudio/AudioHardware.cpp:1446-1458 | what a thread knows stays true while another thread that keeps to the locks writes |
| AudioSafety.AnyStep | libaudio/AudioHardware.cpp:1142-1231 | any step of any operation writes only under its locks, keeps the handles sound, and leaves the thread knowing what its next step relies on |
| AudioSafety.StepKeepsExclusive | libaudio/AudioHardware.cpp:1446-1462 | a lock is owned exactly by the thread that holds it |
| AudioSafety.StepKeepsInvariant | libaudio/AudioHardware.cpp:339-457 | one step of any thread keeps the invariant of the whole system |
| AudioSafety.RunIsSafe | libaudio/AudioHardware.cpp:339-457 | the invariant holds in every state of every run of any number of threads |
| AudioSafety.WaitingClimbs | libaudio/AudioHardware.cpp:345-345 | a thread that waits for a waiting thread wants a lock of lower rank |
| AudioSafety.NoDeadlock | libaudio/AudioHardware.cpp:345-381 | no reachable state has a cycle of threads waiting for each other |
| AudioSafety.SomeoneCanMove | libaudio/AudioHardware.cpp:345-381 | in every state with a thread some thread can take a step |
| AudioSafety.RevalidationIsSound | libaudio/AudioHardware.cpp:348-382 | when setMode leaves its loops naming a stream, it holds that stream's lock and the stream is not in standby |
| AudioSafety.WriterRevalidationIsSound | libaudio/AudioHardware.cpp:1159-1186 | the same for the input write() closes around opening the output, and that output is then still closed |
| AudioSafety.CountsMatchHandles | libaudio/AudioHardware.cpp:778-867 | in every state of every run, count 0 holds exactly when the handle is NULL and the driver trace alternates |
| AudioOutcomes.ApplyModeOutcome | libaudio/AudioHardware.cpp:397-441 | for every state, mode and streams held: the streams are in standby exactly if the change enters or ends a call, all others are untouched, and mode and call flag are as asked for |
| AudioOutcomes.ModeChangeSilences | libaudio/AudioHardware.cpp:345-441 | the same in any run, with the streams found active before |
| AudioOutcomes.LoopsFindActiveStreams | libaudio/AudioHardware.cpp:345-382 | in any run the searching loops of setMode, write and read are left with exactly the stream that is then active, and never without it |
| AudioOutcomes.RunStepsHaveOutcomes | libaudio/AudioHardware.cpp:1142-1231 | every step of every run does to the streams what its place in the program says, and nothing else |
| AudioOutcomes.PlaysOnOpenDevice | libaudio/AudioHardware.cpp:1142-1231 | in every state of every run an output out of standby has the PCM open, and a thread that plays holds its lock |
| AudioOutcomes.CapturesFromOpenDevice | libaudio/AudioHardware.cpp:1803-1893 | with one reader for each input, a thread that captures has its input awake, open and locked |
| AudioAlone.SoloInRun | libaudio/AudioHardware.cpp:339-457 | steps of a run that one thread takes alone are a run of its program |
| AudioAlone.SetModeAlone | libaudio/AudioHardware.cpp:339-457 | setMode silences the active output and the first active input exactly when it enters or ends a call, without a retry |
| AudioAlone.OperationAlone | libaudio/AudioHardware.cpp:339-457 | every request, taken up and carried out with nobody coming between, does what the source's method does |
| AudioAlone.UndisturbedOperation | libaudio/AudioHardware.cpp:339-457 | the same inside any run of any number of threads |
| AudioAlone.WriteAlone | libaudio/AudioHardware.cpp:1142-1231 | write plays on an active output, opens and wakes one in standby around closing and reopening the active input, and leaves it in standby on any failure |
| AudioAlone.ReadAlone | libaudio/AudioHardware.cpp:1803-1893 | read captures from an active input, opens and wakes one in standby after recycling the output, and leaves it in standby on any failure |
| AudioAlone.OutOpAlone | libaudio/AudioHardware.cpp:1353-1388 | a new route silences an output unless there is a call; standby always does |
| AudioAlone.InOpAlone | libaudio/AudioHardware.cpp:1895-1911 | the same for an input |
| AudioAlone.InSourceAlone | libaudio/AudioHardware.cpp:2065-2115 | a source only borrows the mixer |
| AudioAlone.MicMuteAlone | libaudio/AudioHardware.cpp:459-480 | a new mute flag silences the first active input unless there is a call |
| AudioAlone.ActiveIsFirst | libaudio/AudioHardware.cpp:961-975 | the active input is the first of the list out of standby |
| AudioConservation.ApplyModeBalanced | libaudio/AudioHardware.cpp:397-441 | a change of mode keeps the counts equal to the users if and only if, with the streams found silent, each handle is still in use or the driver opens it |
| AudioConservation.StepKeepsConserved | libaudio/AudioHardware.cpp:778-867 | one step of any thread keeps counts equal to users under the two provisos |
| AudioConservation.ReferencesAreConserved | libaudio/AudioHardware.cpp:1269-1307 | in every state of every such run the counts are the users plus one for a call, and no stream keeps a closed handle |
| AudioConservation.ReopenedInputBalance | libaudio/AudioHardware.cpp:1817-1856 | opening the input in read() keeps the counts if and only if it had nothing open |
| AudioDoubleRead.TwoReadersBreakTheBalance | libaudio/AudioHardware.cpp:1817-1856 | a run from the start in which two readers of one input leave the counts wrong |
| AudioFailedCall.FailedCallOpenLeavesDeadHandle | libaudio/AudioHardware.cpp:397-441 | a run from the start in which the mixer of a call cannot be opened, write() opens the output while setMode has let go of its lock, and the end of the call leaves the output a mixer that is closed |
| AudioConservation.BorrowMixer | libaudio/AudioHardware.cpp:2083-2085 | taking the mixer for a moment and giving it back leaves the counts, even when it could not be opened |
| CaptureBuffer.FetchConserves | libaudio/AudioHardware.cpp:1563-1594 | what a read delivers and what stays buffered are what was buffered and the periods the driver delivered |
| CaptureBuffer.FetchSplits | libaudio/AudioHardware.cpp:1563-1594 | one large read delivers what two smaller ones do |
| CaptureBuffer.ReblockingIsLossless | libaudio/AudioHardware.cpp:2199-2229 | over any sequence of reads, output and buffer are the periods read, in order |
| CaptureBuffer.PassConserves | libaudio/AudioHardware.cpp:1602-1657 | one pass of pre-processing loses and repeats no frame |
| CaptureBuffer.QueueIsFifo | libaudio/AudioHardware.cpp:1598-1659 | frames consumed and frames queued are all frames read, over any number of passes |
| CaptureBuffer.CaptureIsLossless | libaudio/AudioHardware.cpp:1598-1659 | the same over any sequence of calls after any open, the first or a later one |
| CaptureBuffer.BoundDoesNotMatter | libaudio/AudioHardware.cpp:1598-1659 | a loop that ends within some bound on its passes ends in the same way under every larger one |
| CaptureBuffer.ProductiveEffectEnds | libaudio/AudioHardware.cpp:1651-1657 | with pre-processors that always produce something the loop ends within the frames asked for |
| CaptureBuffer.SilentEffectNeverEnds | libaudio/AudioHardware.cpp:1651-1657 | with pre-processors that only consume it ends by a failed read or never |
| CaptureEffects.OutputIsTheEffects | libaudio/AudioHardware.cpp:1598-1659 | over any number of passes, what is delivered is the effect's answers in order, each to the frames not yet taken and for the room still missing |
| CaptureEffects.DeliveredIsTheEffects | libaudio/AudioHardware.cpp:1598-1659 | the same over any sequence of calls, each answer belonging to the request then being served |
| CaptureEffects.PlainEffectDeliversPeriods | libaudio/AudioHardware.cpp:1598-1659 | an effect that hands on what it takes delivers the driver's periods |
| CaptureEffects.FetchAsksDriver | libaudio/AudioHardware.cpp:1563-1594 | the driver is asked only for what is missing, up to its first failure, whose status is the result |
| CaptureEffects.LoopAsksDriver | libaudio/AudioHardware.cpp:1598-1659 | so is a loop of pre-processing |
| CaptureStream.AudioStreamIn.GetNextBuffer | libaudio/AudioHardware.cpp:2199-2224 | refills only an empty buffer, hands out its oldest frames; an error leaves none buffered |
| CaptureStream.AudioStreamIn.ReleaseBuffer | libaudio/AudioHardware.cpp:2226-2229 | drops exactly the frames taken |
| CaptureStream.AudioStreamIn.ReadFrames | libaudio/AudioHardware.cpp:1563-1594 | the array loop delivers what the FIFO delivers, terminates, and writes nothing else; a closed device gives NO_INIT |
| CaptureStream.AudioStreamIn.Grow | libaudio/AudioHardware.cpp:1605-1611 | the queue keeps its frames when its buffer grows |
| CaptureStream.AudioStreamIn.ShiftDown | libaudio/AudioHardware.cpp:1643-1649 | the ascending overlapping copy moves the frames intact |
| CaptureStream.AudioStreamIn.ProcessOnce | libaudio/AudioHardware.cpp:1602-1657 | one pass over the arrays computes the pass of the queue, within the room given, and stores the effect's answer to all frames pending |
| CaptureStream.AudioStreamIn.ProcessFrames | libaudio/AudioHardware.cpp:1598-1659 | the loop computes the queue's passes and never delivers more than was asked for |
| CaptureStream.AudioStreamIn.Open | libaudio/AudioHardware.cpp:1994-2004 | a stream opens with empty buffers |
| SampleRate.GetInputSampleRate | libaudio/AudioHardware.cpp:945-959 | for any ascending table and any 32-bit request the result is nearest if and only if the request is in reach, and equals the request if and only if it is supported |
| SampleRate.FarRequestsMissNearest | libaudio/AudioHardware.cpp:945-959 | a request out of reach, and its nearest rate |
| SampleRate.GetBufferSize | libaudio/AudioHardware.cpp:2231-2246 | the failure exit is taken exactly for rates not in the table |
| SampleRate.GetInputBufferSize | libaudio/AudioHardware.cpp:550-567 | never takes the failure exit of getBufferSize, and gives the bytes of one period at that rate |
| Demux.ParseEncode | libcamera/SecCameraHWInterface.cpp:1316-1359 | reading what was written gives back every sequence of words, lines and padding |
| Demux.EncodeParse | libcamera/SecCameraHWInterface.cpp:1316-1359 | whatever is read to its end is the encoding of what was read |
| Demux.InterleavingRoundTrip | libcamera/SecCameraHWInterface.cpp:1294-1381 | a JPEG ending in EOI (section B.1.1.3, Table B.1 of ITU-T T.81), filled to words, and any lines, in any interleaving, come back exactly and the call succeeds |
| Demux.DecodeInterleaveData | libcamera/SecCameraHWInterface.cpp:1294-1381 | the pointer loop stores what the data says, keeps pointer and count in step, stays in bounds, and answers as the data demands in every ending |
| Demux.PaddingAloneIsOutOfBounds | libcamera/SecCameraHWInterface.cpp:1361-1372 | data without a JPEG word, read to its end, for which the stripping leaves the buffer |
| Demux.StripPadding | libcamera/SecCameraHWInterface.cpp:1363-1371 | takes off up to three FF bytes |
| DemuxEndings.BrokenLineFails | libcamera/SecCameraHWInterface.cpp:1341-1347 | a line without its end code, behind any items and before any data, fails the call with its pixels stored and no JPEG size |
| DemuxEndings.LinesDecide | libcamera/SecCameraHWInterface.cpp:1361-1380 | with a complete JPEG the call succeeds if and only if the lines are as many as asked for, or not wanted |
| DemuxEndings.ShortDataOverruns | libcamera/SecCameraHWInterface.cpp:1315-1359 | data that ends inside a word is read beyond its end |
| DemuxEndings.StripTakes | libcamera/SecCameraHWInterface.cpp:1363-1371 | only FF bytes are taken off, at most three, and all there are up to that |
| DemuxEndings.PaddingBytes | libcamera/SecCameraHWInterface.cpp:1317-1319 | the three padding words, byte by byte |
| PixelMaps.YUY2toNV21 | libcamera/SecCameraHWInterface.cpp:1018-1047 | for even widths and any height every pixel keeps its luma and gets the chroma of its pair in the even row; nothing behind the picture is written |
| PixelMaps.CopyChroma | libcamera/SecCameraHWInterface.cpp:1035-1044 | the nested loop writes V and U of every other row in place |
| PixelScale.ScaleDownYuv422 | libcamera/SecCameraHWInterface.cpp:986-1016 | odd destinations are refused untouched; otherwise, for any source with a macropixel, every pixel is one of the source, whole macropixels at a time, all accesses in bounds |
| PixelScale.SameSizeIsIdentity | libcamera/SecCameraHWInterface.cpp:998-1013 | scaling to the same size copies the picture byte by byte |
| PixelScale.StepsFit | libcamera/SecCameraHWInterface.cpp:998-999 | the truncated steps never leave the source, wider or narrower, odd or even |
| PreviewFrame.CopyFrame | libcamera/SecCameraHWInterface.cpp:566-596 | for any size and stride the window holds the picture of the frame, with U and V in their swapped planes, and nothing behind it is written |
| PreviewFrame.ToNv21 | libcamera/SecCameraHWInterface.cpp:611-628 | for any size the two chroma quarters are interleaved and all else stays; for even sizes that is the same picture in NV21 |
| PreviewFrame.StepsAgreeIff | libcamera/SecCameraHWInterface.cpp:566-628 | exactly when copy and conversion mean the same place by the V plane; for even sizes they do |
| PreviewFrame.OddStepsDisagree | libcamera/SecCameraHWInterface.cpp:566-628 | a size for which they do not |
| PreviewHandshake.ClientKeeps | libcamera/SecCameraHWInterface.cpp:668-767 | a step of the client keeps the places the two threads can be in |
| PreviewHandshake.PreviewKeeps | libcamera/SecCameraHWInterface.cpp:485-507 | a step of the preview thread keeps them, and keeps a parked thread's camera off |
| PreviewHandshake.StoppedMeansParked | libcamera/SecCameraHWInterface.cpp:741-767 | whenever the stop path is left the thread is parked, whatever driver starts failed |
| PreviewHandshake.StoppedMeansCameraOff | libcamera/SecCameraHWInterface.cpp:741-767 | the camera is then off, if no deferred start failed with the stream on |
| PreviewHandshake.StopLeavesCameraOnIff | libcamera/SecCameraHWInterface.cpp:741-757 | exactly when a stop leaves the camera on |
| PreviewHandshake.CameraCanStayOn | libcamera/SecCameraHWInterface.cpp:427-434 | a run in which it does |
| PreviewHandshake.StartMeetsParkedThread | libcamera/SecCameraHWInterface.cpp:704-739 | startPreviewInternal runs only while the thread is parked |
| PreviewHandshake.HeapIsStable | libcamera/SecCameraHWInterface.cpp:724-732 | the heap is there and the same throughout every frame |
| PreviewHandshake.StartWakesThread | libcamera/SecCameraHWInterface.cpp:696-701 | the signal after a start is never lost |
| PreviewHandshake.WindowChangeKeepsPreviewIff | libcamera/SecCameraHWInterface.cpp:371-438 | in any run, a preview is wanted after a window was set if and only if it was running and deferred when the call began |
| PreviewHandshake.PreviewCanBeLost | libcamera/SecCameraHWInterface.cpp:383-388 | a run in which a preview that shows frames is switched off by setting a window |
| PreviewHandshake.WaitEnds | libcamera/SecCameraHWInterface.cpp:745-752 | every wait for the thread ends within eight steps |
| PreviewHandshake.NoStepLeftIff | libcamera/SecCameraHWInterface.cpp:485-507 | in every reachable state a step can be taken if and only if the client is not stuck on a lock it has itself left taken, and by the preview thread if the client waits for it |
| PreviewHandshake.FailedSetupHangs | libcamera/SecCameraHWInterface.cpp:390-425 | a window that cannot be set up leaves the lock taken, and nothing but the window pointer changes in any state after it |
| PreviewHandshake.OnlyFailedSetupHangs | libcamera/SecCameraHWInterface.cpp:390-425 | and only that hangs a run |
| PreviewHandshake.ClientCanHang | libcamera/SecCameraHWInterface.cpp:390-425 | a run in which a client is stuck |
| PreviewCalls.WindowIsLastGiven | libcamera/SecCameraHWInterface.cpp:371-381 | in every state of every run the window in use is the one the last setPreviewWindow gave, NULL included |
| PreviewCalls.CameraStartsWithWindow | libcamera/SecCameraHWInterface.cpp:668-702 | in no run is the camera started for a preview while the window given last is NULL |
| PreviewCalls.StartOutcome | libcamera/SecCameraHWInterface.cpp:668-739 | how every start ends: nothing if the preview runs, deferred without a window, otherwise camera on, new heap and thread woken, unless the camera fails |
| PreviewCalls.DeferredStartLeavesCameraOff | libcamera/SecCameraHWInterface.cpp:688-693 | a start without a window ends running and deferred, with the camera off and the thread parked |
| PreviewCalls.StopAndWindowOutcome | libcamera/SecCameraHWInterface.cpp:371-438 | how every stop and every change of window ends |
| PreviewCalls.HeapIsNew | libcamera/SecCameraHWInterface.cpp:724-732 | a start's heap is none that was there before |
| PreviewCalls.FramesKeepComing | libcamera/SecCameraHWInterface.cpp:485-507 | while a preview runs the thread is never more than six of its own steps from handing on a frame, whatever the client does |
| PreviewCalls.FrameOutcome | libcamera/SecCamera.cpp:985-1024 | a frame comes at once from a camera that is on and delivers, and otherwise after it was switched off and reset |
| RecordBuffers.PreviewStaysWhole | libcamera/SecCamera.cpp:691-834 | over any session of starts, stops and fetches a preview that is on has every buffer queued |
| RecordBuffers.FrameIsTheDrivers | libcamera/SecCamera.cpp:985-1024 | a call that comes to fetching answers with the very buffer the driver hands out, exactly if it had it queued and takes it back |
| RecordBuffers.FrameLeavesPreviewWhole | libcamera/SecCamera.cpp:985-1024 | over any session a frame that is returned is the buffer the driver handed out, and leaves the preview on and every buffer queued, if and only if it was not the 0 of a failed restart |
| RecordBuffers.ResetRestartsIff | libcamera/SecCamera.cpp:990-1012 | exactly when a reset ends with the preview on |
| RecordBuffers.ResetNeverRestarts | libcamera/SecCamera.cpp:990-1012 | with a driver that answers well a frame comes if and only if the preview is on and delivers |
| RecordBuffers.StallEndsPreview | libcamera/SecCamera.cpp:990-1012 | from a call that stalls on, no call returns a frame |
| RecordBuffers.StartKeepsOwnedIff | libcamera/SecCameraHWInterface.cpp:778-802 | starting keeps ownership if and only if the client holds no frame |
| RecordBuffers.HeldSlotCanBeLost | libcamera/SecCameraHWInterface.cpp:784-792 | a session with a held frame at which a second start loses its slot |
| RecordBuffers.StopKeepsOwnedIff | libcamera/SecCameraHWInterface.cpp:804-817 | stopping keeps ownership if and only if the driver carries it out |
| RecordBuffers.FrameCanBeLost | libcamera/SecCameraHWInterface.cpp:638-646 | a session at which a frame without addresses is lost |
| RecordBuffers.FrameKeepsOwnedIff | libcamera/SecCameraHWInterface.cpp:631-663 | a frame goes to the client or back to the driver, and is lost if and only if it has no addresses |
| RecordBuffers.ReleaseKeepsOwned | libcamera/SecCameraHWInterface.cpp:826-830 | a frame given back returns the buffer it stands for |
| RecordBuffers.SessionKeepsOwned | libcamera/SecCameraHWInterface.cpp:778-830 | over any session each buffer is the driver's or the client's, and each held slot names its buffer |
| RecordOutcomes.FrameOutcome | libcamera/SecCameraHWInterface.cpp:631-663 | what becomes of a recorded frame, for every frame number, with or without addresses and whether or not the client wants it |
| RecordOutcomes.FrameRoundTrip | libcamera/SecCameraHWInterface.cpp:631-830 | a frame handed to the client and given back is with the driver again |
| RecordOutcomes.StartRecordingOutcome | libcamera/SecCameraHWInterface.cpp:778-802 | a new empty heap in any case, and a recording that runs exactly if it did or the driver starts it |
| RecordOutcomes.StopRecordingOutcome | libcamera/SecCameraHWInterface.cpp:804-817 | how a stop ends for every answer of the driver |
| RecordOutcomes.StartPreviewOutcome | libcamera/SecCamera.cpp:691-806 | how a start ends for every answer of the driver |
| RecordOutcomes.LateReleaseIsIgnored | libcamera/SecCamera.cpp:1037-1051 | a frame that comes back after the recording changes nothing at the driver |
| RecordCamera.SecCamera.StartPreview | libcamera/SecCamera.cpp:691-806 | queues every buffer, or as many as the driver took |
| RecordCamera.SecCamera.GetPreview | libcamera/SecCamera.cpp:985-1024 | the method computes the function, reset included; from a preview that delivers it answers with the buffer handed out |
| RecordCamera.SecCamera.StartRecord | libcamera/SecCamera.cpp:836-900 | queues every buffer, or as many as the driver took |
| RecordCamera.SecCamera.StopRecord | libcamera/SecCamera.cpp:902-941 | clears the flag first, then gives up the queue, or fails |
| RecordCamera.SecCamera.ReleaseRecordFrame | libcamera/SecCamera.cpp:1037-1051 | ignored unless recording |
| RecordCamera.CameraHardware.StartRecording | libcamera/SecCameraHWInterface.cpp:778-802 | a new heap, and a start unless running; ownership survives if and only if nothing is held |
| RecordCamera.CameraHardware.StopRecording | libcamera/SecCameraHWInterface.cpp:804-817 | stops unless the driver refuses; ownership survives if and only if it does not |
| RecordCamera.CameraHardware.RecordFrame | libcamera/SecCameraHWInterface.cpp:631-663 | fills the slot and hands the frame on, or gives it back, and keeps ownership when there are addresses |
| RecordCamera.CameraHardware.ReleaseRecordingFrame | libcamera/SecCameraHWInterface.cpp:826-830 | gives back the buffer named by the memory pointed to, of this heap or an earlier one, and keeps ownership |
| FocusArea.ParseOfPrint | libcamera/SecCameraUtils.cpp:34-71 | parsing what was printed gives back all five numbers, for every 32-bit value |
| FocusArea.PrintIsInjective | libcamera/SecCameraUtils.cpp:68-71 | different areas are printed differently |
| FocusArea.ParseIsStable | libcamera/SecCameraUtils.cpp:34-71 | printing and parsing again changes nothing, whatever text an area came from |
| FocusArea.SeparatorsDecide | libcamera/SecCameraUtils.cpp:34-54 | for any separators and any text behind: an area exactly if four commas and a bracket follow the numbers, otherwise a dummy |
| FocusArea.UnsetIff | libcamera/SecCameraUtils.cpp:34-54 | only text that does not begin with a bracket leaves the fields unset |
| FocusArea.StrtolReads | libcamera/SecCameraUtils.cpp:41-50 | white space, one sign and zeros may stand before a number, and values end at the 32-bit limits |
| FocusArea.SecCameraArea.FromText | libcamera/SecCameraUtils.cpp:34-54 | the constructor does what the parse says: fields set, all zero (a dummy), or left as memory had them |
| FocusArea.SecCameraArea.ToText | libcamera/SecCameraUtils.cpp:68-71 | text from which the constructor makes the same area |
| FocusArea.SecCameraArea.IsDummy | libcamera/SecCameraUtils.cpp:64-66 | no area, whatever its weight |
| FocusArea.MiddleLiesBetween | libcamera/SecCameraUtils.cpp:56-62 | getX and getY lie between the scaled edges and inside the picture under truncating division |
| FocusArea.SecCameraArea.GetX | libcamera/SecCameraUtils.cpp:56-58 | left and right edge enclose it |
| FocusArea.SecCameraArea.GetY | libcamera/SecCameraUtils.cpp:60-62 | top and bottom edge enclose it |
| FocusArea.MiddleGrows | libcamera/SecCameraUtils.cpp:56-62 | and grow with either edge |
| FocusArea.MiddleIsMean | libcamera/SecCameraUtils.cpp:56-62 | and are the mean of the two edges, the same whichever comes first, within half a unit and a step |
| ChargerRuns.DueCallGoesOn | charger/charger.c:535-644 | a due call ends the animation or takes cycle and frame strictly forward, and never past the last cycle |
| ChargerRuns.AnimationEnds | charger/charger.c:535-644 | for any table, display times, readings and keys, at most num_cycles * max(1, num_frames) due calls come before the one that ends it |
| ChargerRuns.AnimationHasEnded | charger/charger.c:558-564 | so one due call more and the animation has stopped |
| ChargerRuns.DrawnFrameFits | charger/charger.c:576-623 | a cycle opens on the highest level not above the capacity, for twice its time, and a level_only frame is drawn only there |
| ChargerRuns.EveryWaitIsScheduled | charger/charger.c:739-761 | at every wait the animation runs if and only if a transition is scheduled, which lies ahead |
| ChargerRuns.KeyCheckBoundsWait | charger/charger.c:739-761 | a key deadline bounds the wait, whatever the screen has scheduled |
| ChargerRuns.HeldKeyOutcome | charger/charger.c:686-737 | a held power key reboots exactly after its time, and otherwise what becomes of the deadline |
| ChargerRuns.DeadlineSetIff | charger/charger.c:686-694 | a press sets its own deadline if and only if no earlier one is pending |
| ChargerRuns.PressIsHonoured | charger/charger.c:776-792 | over any events while the key is held, every pass reboots exactly when due or waits no longer than that |
| ChargerRuns.StaleCheckHidesPress | charger/charger.c:730-737 | a run in which a stale deadline leaves a held key unwatched |
| ChargerFilm.NextFrame | charger/charger.c:625-643 | after a frame comes the least later one not kept for its level, in the same cycle, or, if there is none, the next cycle |
| ChargerFilm.FilmIsExpected | charger/charger.c:535-644 | due calls show, cycle by cycle, the frame of the battery's level and every later moving frame in order, or the picture for an unknown battery, and after the last cycle a blank |
| ChargerFilm.RunShowsExpected | charger/charger.c:776-792 | the same over any events while the animation runs |
| ChargerKeys.KeysRememberLastChange | charger/charger.c:646-676 | over any events every key's state and time are those of its last change |
| ChargerKeys.KeysKick | charger/charger.c:696-737 | a pass reboots exactly if the power key is due, and otherwise starts the animation exactly if a key wants it |
| ChargerKeys.KeyShowsBattery | charger/charger.c:696-737 | with a blank screen, a pass shows the battery from its opening frame exactly if a key wants it |
| ChargerKeys.SupplyOutcome | charger/charger.c:377-391 | a pass that does not reboot powers off exactly if a look at the supplies is due and finds none |
| ChargerKeys.UnpluggedPowersOff | charger/charger.c:377-391 | over any events, a pass a second after an earlier one that finds no supply powers off or reboots, and none that finds one goes off |
| ChargerKeys.WaitEndsAtNextEvent | charger/charger.c:739-761 | the wait is without end if nothing is scheduled, and otherwise the time to the earlier event, as far as an int holds it |
| ChargerKeys.ScreenGoesBlank | charger/charger.c:535-564 | when the animation is over, or the battery cannot be read at first, the screen is blank and nothing is scheduled |
| ChargerLoop.Animation.DropFrames | charger/charger.c:822-829 | a missing image leaves one picture and one cycle, and the animation valid |
| ChargerLoop.Animation.Open | charger/charger.c:572-600 | the search loop finds the opening frame |
| ChargerLoop.Animation.Advance | charger/charger.c:625-643 | the skip loop finds the next frame not kept for its level, skipping no other, or ends the cycle |
| ChargerLoop.Charger.UpdateScreenState | charger/charger.c:535-644 | the method computes one update |
| ChargerLoop.Charger.SetKey | charger/charger.c:646-676 | set_key_callback |
| ChargerLoop.Charger.SetNextKeyCheck | charger/charger.c:686-694 | an earlier deadline wins |
| ChargerLoop.Charger.ProcessKey | charger/charger.c:696-728 | one key |
| ChargerLoop.Charger.HandleInputState | charger/charger.c:730-737 | both keys, then a deadline that is over |
| ChargerLoop.Charger.WaitNextEvent | charger/charger.c:739-761 | the timeout, with its conversion to int |
| ChargerLoop.Charger.CheckStatus | charger/charger.c:377-391 | plugged in, the next check is set; unplugged, the device goes off |
| ChargerLoop.Charger.Loop | charger/charger.c:776-792 | one round of the loop, keys, supply, screen and wait, computes one pass |
| LogChunks.ChunksPartition | charger/charger.c:220-239 | the chunks are non-empty, at most 256 bytes, end lines where they can, and make up the log |
| LogChunks.EveryChunkIsLongest | charger/charger.c:223-228 | every chunk takes all the whole lines that fit into its window, but for the window's last byte |
| LogChunks.PrintedWhole | charger/charger.c:231-234 | what is printed is the log if and only if it holds no NUL |
| LogChunks.NulLogIsNotWhole | charger/charger.c:231-234 | a log that is not printed whole |
| LogChunks.DumpLastKmsg | charger/charger.c:201-244 | the loop hands out those chunks of the last 32768 bytes and leaves the buffer as it was |
| LogChunks.WriteChunk | charger/charger.c:231-234 | the temporary NUL is undone |
| Updater.NoWipeWithoutConsent | rootdir/updater.sh:150-183 | over any runs, reboots and lost files: at every moment no more wipes than consents and no more consents than warnings, each consent answering a warning of the same boot, and the markers covered |
| Updater.ScriptKeeps | rootdir/updater.sh:278-405 | one run of any branch, with any failures, keeps that ledger |
| Updater.RunWipes | rootdir/updater.sh:347-405 | a run wipes at most once for an answered warning and once for the marker |
| Updater.InstallSettles | rootdir/updater.sh:372-405 | an install that ends well has wiped and taken its marker away, and is not repeated by later runs |
| Updater.PendingInstallKeptIff | rootdir/updater.sh:347-405 | a run keeps the marker of a pending install or makes its wipe, if and only if it does not come to a failing efs restore |
| Updater.FailedRestoreLosesInstall | rootdir/updater.sh:391-399 | then the marker is spent without its wipe, and later runs do not take the install up |
| Updater.InstallCanBeLost | rootdir/updater.sh:278-405 | a run of events from an untouched device in which that happens |
| UpdaterOutcomes.ExitCodes | rootdir/updater.sh:278-405 | each exit code, if and only if its case |
| UpdaterOutcomes.AgreedInstallIsRemembered | rootdir/updater.sh:284-345 | agreeing leaves the marker exactly if it can be written, and reboots exactly if the run ends well, without a wipe |
| UpdaterOutcomes.CurrentRunOutcome | rootdir/updater.sh:353-404 | what a good run on the new layout wipes and leaves |
| UpdaterOutcomes.FailedRunOutcome | rootdir/updater.sh:353-404 | what a run that fails on the new layout leaves done and pending |
| UpdaterOutcomes.InstallGoesThrough | rootdir/updater.sh:278-405 | from any untouched device, when nothing fails: every question answered once, one wipe for each consent, nothing left pending |
| UpdaterScript.Recovery.WarnRepartition | rootdir/updater.sh:150-170 | warns and gives up, or goes on |
| UpdaterScript.Recovery.FormatPartitions | rootdir/updater.sh:173-206 | one wipe |
| UpdaterScript.Recovery.Script | rootdir/updater.sh:278-405 | the three branches compute the function, and keep the ledger |
| UpdaterScript.Recovery.FromStock | rootdir/updater.sh:284-309 | the stock branch |
| UpdaterScript.Recovery.FromOldMtd | rootdir/updater.sh:318-345 | the old layout's branch |
| UpdaterScript.Recovery.FromCurrent | rootdir/updater.sh:353-404 | the new layout's branch |

## Left out

- Echo reference: `mEchoReference` is taken to be NULL, so `doStandby_l` of an input takes no output lock.
- Lifetime of audio streams: streams outlive every thread that uses them; reference counting of `sp<>` is not modelled.
- `mSleepReq` and the sleeps around locks only change timing; a step may be delayed for any time anyway.
- `mStandbyCnt` and the two open counts are unbounded numbers, not 32-bit ones.
- Paths, volumes, voice routes and the RIL connection of the audio HAL: tables and callbacks.
- The resampler of a capture stream: only streams without one are modelled.
- CaptureStream.AudioStreamIn.ProcessFrames: takes a bound on its passes and says whether it ended within it, because the source loops as long as the pre-processor produces nothing (`CaptureBuffer.SilentEffectNeverEnds`); where the source's loop ends, every large enough bound gives its result (`CaptureBuffer.BoundDoesNotMatter`).
- The chain of pre-processors is one effect that consumes at most what it is offered and produces at most the room given.
- Demux.DecodeInterleaveData: asks for output buffers with room for what the data holds, as the source does; sizes are unbounded numbers, and reads beyond the data end the model with `OutOfBounds` before the last line is stored.
- Allocation of the record heap and the end of the preview stream are taken to succeed.
- PixelMaps.YUY2toNV21: asks for an even width, because with an odd one the second loop reads beyond the last row; pixel sizes are unbounded numbers.
- PreviewHandshake.StoppedMeansParked: starts from a preview thread that has parked once, with one client and no spurious wake-ups.
- The window pointer is read by the preview thread without the lock; what a frame does with it is not modelled.
- Camera shutdown, autofocus, taking pictures and the parameter strings.
- `mCaptureInProgress` and `waitCaptureCompletion`: a start that times out there does nothing.
- The charger's suspend requests, and how it reads its supplies: whether it is plugged in is an input of each pass.
- A reboot or power-off of the charger does not come back, and a frame table has at least one entry, as the built-in one does.
- `/mnt/sdcard` and `/sdcard` are one place, file operations and lvm commands of the script succeed, and only the script creates its two markers.
- UpdaterScript.Recovery.FormatPartitions: records the removal and creation of the volumes, their formatting and the erasing of `/datadata` as one wipe, because each follows the other in any case.
- The erasing of `/datadata` on the old layout follows a consent directly and is not counted as a wipe.
- Logging, backups and modem restore of the script, except where they end it.
- EXIF, DeviceSettings, liblights, recovery keys and graphics, sepolicy and makefiles: tables, plumbing or user interface.
