/** What becomes of each call on the camera's buffers, whatever the driver answers. */
module RecordOutcomes {
  import opened Options
  import opened RecordBuffers

  /** The buffers below n, of those there are. */
  ghost predicate FirstQueued(queue: set<nat>, n: nat) {
    forall i: nat :: i in queue <==> i < n && i < MAX_BUFFERS
  }

  /** Starting a preview: one that is on stays as it is; otherwise as many buffers are queued as the driver takes,
      the call succeeds exactly if the driver does, and only a failure behind the last buffer can leave the
      preview on. The recording is left alone. */
  lemma StartPreviewOutcome(c: Camera, st: Start)
    ensures var (c', ret) := StartPreview(c, st);
      && (ret == 0 <==> c.previewOn || st.Ready?) && (ret == 0 || ret == -1)
      && c'.recordOn == c.recordOn && c'.record == c.record
      && if c.previewOn then c' == c
         else
           && (c'.previewOn <==> SwitchesOn(st))
           && FirstQueued(c'.preview, if st.Ready? then MAX_BUFFERS else st.queued)
  {
  }

  /** Stopping it: off, with nothing queued. */
  lemma StopPreviewOutcome(c: Camera)
    ensures var c' := StopPreview(c);
      && !c'.previewOn && c'.recordOn == c.recordOn && c'.record == c.record
      && c'.preview == (if c.previewOn then {} else c.preview)
  {
  }

  /** A recording: the same, but that a start that fails never leaves it on. */
  lemma StartRecordOutcome(c: Camera, st: Start)
    ensures var (c', ret) := StartRecord(c, st);
      && (ret == 0 <==> c.recordOn || st.Ready?) && (ret == 0 || ret == -1)
      && c'.previewOn == c.previewOn && c'.preview == c.preview
      && if c.recordOn then c' == c
         else
           && (c'.recordOn <==> st.Ready?)
           && FirstQueued(c'.record, if st.Ready? then MAX_BUFFERS else st.queued)
  {
  }

  /** startRecording always makes a new heap with no slot filled in, leaves the client's frames alone, and ends with
      the recording running exactly if it was or the driver starts it. */
  lemma StartRecordingOutcome(d: Device, st: Start)
    requires Owned(d)
    ensures var d' := StartRecording(d, st);
      && d'.heap == d.heap + 1 && |d'.slots| == MAX_BUFFERS
      && (forall i | 0 <= i < MAX_BUFFERS :: d'.slots[i].None?)
      && d'.held == d.held && d'.video == d.video
      && (d'.running <==> d.running || st.Ready?) && (d'.running <==> d'.cam.recordOn)
      && (if d.running then d'.cam == d.cam
          else FirstQueued(d'.cam.record, if st.Ready? then MAX_BUFFERS else st.queued))
  {
  }

  /** stopRecording: the camera no longer records, whatever the driver answers; its queue is given up unless the
      stream cannot be ended, and only a stop without any failure is remembered as one. */
  lemma StopRecordingOutcome(d: Device, st: Stop)
    requires Owned(d)
    ensures var d' := StopRecording(d, st);
      && !d'.cam.recordOn && (d'.running <==> d.running && !st.Done?)
      && d'.cam.record == (if st.StreamFails? then d.cam.record else {})
      && d'.held == d.held && d'.heap == d.heap && d'.slots == d.slots
      && d'.cam.previewOn == d.cam.previewOn && d'.cam.preview == d.cam.preview
  {
  }

  /** Of a frame the driver hands out while a recording runs: with addresses it reaches a client that wants frames,
      in the slot of its own number, or goes back to the driver; without, it is gone from the driver and reaches
      nobody. Nothing happens if the driver has none. */
  lemma FrameOutcome(d: Device, frame: int, addresses: bool)
    requires Owned(d)
    ensures var d' := RecordFrame(d, frame, addresses);
      if !d.running || frame < 0 || frame !in d.cam.record then d' == d
      else
        && frame < MAX_BUFFERS
        && (addresses && d.video ==>
              && d'.held == d.held + {Frame(d.heap, frame)} && d'.cam.record == d.cam.record - {frame}
              && Frame(d.heap, frame) !in d.held)
        && (addresses && !d.video ==> d'.held == d.held && d'.cam.record == d.cam.record)
        && (addresses ==> d'.slots == d.slots[frame := Some(frame)])
        && (!addresses ==> d' == d.(cam := d.cam.(record := d.cam.record - {frame})))
        && d'.running && d'.cam.recordOn && d'.heap == d.heap
  {
    if d.running && frame >= 0 && frame in d.cam.record {
      assert frame in ALL;
      HeldHasIndex(d.held, Frame(d.heap, frame));
      assert d.cam.record - {frame} + {frame} == d.cam.record;
    }
  }

  lemma HeldHasIndex(held: set<Frame>, f: Frame)
    ensures f in held ==> f.index in Indices(held)
  {
  }

  /** A frame that comes back when the camera no longer records changes nothing at the driver. */
  lemma LateReleaseIsIgnored(d: Device, f: Frame, stray: nat)
    requires !d.cam.recordOn
    ensures ReleaseRecordingFrame(d, f, stray) == d.(held := d.held - {f})
  {
  }

  /** Every frame handed to the client and given back is with the driver again: a round trip. */
  lemma FrameRoundTrip(d: Device, frame: nat, stray: nat)
    requires Owned(d) && d.running && d.video && frame in d.cam.record
    ensures var d' := ReleaseRecordingFrame(RecordFrame(d, frame, true), Frame(d.heap, frame), stray);
      d'.cam == d.cam && d'.held == d.held && Owned(d')
  {
    FrameOutcome(d, frame, true);
    FrameKeepsOwnedIff(d, frame, true);
    var mid := RecordFrame(d, frame, true);
    ReleaseKeepsOwned(mid, Frame(d.heap, frame), stray);
    assert d.cam.record - {frame} + {frame} == d.cam.record;
    assert d.held + {Frame(d.heap, frame)} - {Frame(d.heap, frame)} == d.held;
    CameraKept(d, frame);
  }

  lemma CameraKept(d: Device, frame: nat)
    requires Owned(d) && d.running
    ensures var c := RecordFrame(d, frame, true).cam;
      c.previewOn == d.cam.previewOn && c.preview == d.cam.preview && c.recordOn == d.cam.recordOn
  {
  }
}
