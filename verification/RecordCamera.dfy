/** The camera objects that queue, hand out and take back the buffers, changed in place. */
module RecordCamera {
  import opened Options
  import R = RecordBuffers

  class SecCamera {
    var flagCameraStart: bool
    var flagRecordStart: bool
    /** The driver's queues. */
    var preview: set<nat>
    var record: set<nat>

    constructor ()
      ensures Model() == R.Camera(false, {}, false, {})
    {
      flagCameraStart, flagRecordStart, preview, record := false, false, {}, {};
    }

    function Model(): R.Camera
      reads this
    {
      R.Camera(flagCameraStart, preview, flagRecordStart, record)
    }

    method StartPreview(driver: R.Start) returns (ret: int)
      modifies this
      ensures (Model(), ret) == R.StartPreview(old(Model()), driver)
    {
      if flagCameraStart {
        return 0;
      }
      preview := {};
      var i: nat := 0;
      while i < R.MAX_BUFFERS
        invariant i <= R.MAX_BUFFERS && preview == R.First(i)
        invariant driver.Fails? && driver.queued < R.MAX_BUFFERS ==> i <= driver.queued
        invariant !flagCameraStart && flagRecordStart == old(flagRecordStart) && record == old(record)
      {
        if driver.Fails? && i == driver.queued {
          return -1;
        }
        preview := preview + {i};
        i := i + 1;
      }
      if driver.Fails? {
        flagCameraStart := driver.on;
        return -1;
      }
      flagCameraStart := true;
      return 0;
    }

    method StopPreview()
      modifies this
      ensures Model() == R.StopPreview(old(Model()))
    {
      if !flagCameraStart {
        return;
      }
      preview := {};
      flagCameraStart := false;
    }

    method GetPreview(f: R.Fetch) returns (index: int)
      modifies this
      ensures (Model(), index) == R.GetPreview(old(Model()), f)
      ensures old(flagCameraStart) && !f.stalled ==>
        (if index >= 0 then index == f.frame && index in old(preview) && f.requeued else index == -1)
    {
      if !flagCameraStart || f.stalled {
        StopPreview();
        if !f.querycap {
          return -1;
        }
        if f.named {
          return -1;
        }
        if !f.input {
          return -1;
        }
        hide R.StartPreview;
        var ret := StartPreview(f.restart);
        if ret < 0 {
          return 0;
        }
      }
      index := R.Dequeue(preview, f.frame);
      if !(0 <= index < R.MAX_BUFFERS) {
        return -1;
      }
      preview := preview - {index};
      if !f.requeued {
        return -1;
      }
      preview := R.Enqueue(preview, index);
    }

    method StartRecord(driver: R.Start) returns (ret: int)
      modifies this
      ensures (Model(), ret) == R.StartRecord(old(Model()), driver)
    {
      if flagRecordStart {
        return 0;
      }
      record := {};
      var i: nat := 0;
      while i < R.MAX_BUFFERS
        invariant i <= R.MAX_BUFFERS && record == R.First(i)
        invariant driver.Fails? && driver.queued < R.MAX_BUFFERS ==> i <= driver.queued
        invariant !flagRecordStart && flagCameraStart == old(flagCameraStart) && preview == old(preview)
      {
        if driver.Fails? && i == driver.queued {
          return -1;
        }
        record := record + {i};
        i := i + 1;
      }
      if driver.Fails? {
        return -1;
      }
      flagRecordStart := true;
      return 0;
    }

    method StopRecord(driver: R.Stop) returns (ret: int)
      modifies this
      ensures (Model(), ret) == R.StopRecord(old(Model()), driver)
    {
      if !flagRecordStart {
        return 0;
      }
      flagRecordStart := false;
      if driver.StreamFails? {
        return -1;
      }
      record := {};
      if driver.RateFails? {
        return -1;
      }
      return 0;
    }

    method GetRecordFrame(frame: int) returns (index: int)
      modifies this
      ensures (Model(), index) == R.GetRecordFrame(old(Model()), frame)
    {
      if !flagRecordStart {
        return -1;
      }
      index := R.Dequeue(record, frame);
      if index >= 0 {
        record := record - {index};
      }
    }

    method ReleaseRecordFrame(index: nat)
      modifies this
      ensures Model() == R.ReleaseRecordFrame(old(Model()), index)
    {
      if !flagRecordStart {
        return;
      }
      record := R.Enqueue(record, index);
    }
  }

  /** slots is mRecordHeap; held is what the client has in its hands. */
  class CameraHardware {
    const cam: SecCamera
    var recordRunning: bool
    var recordHeap: nat
    var slots: array<Option<nat>>
    var msgVideo: bool
    ghost var held: set<R.Frame>

    constructor (cam: SecCamera)
      ensures this.cam == cam && fresh(slots) && slots.Length == 0
      ensures Model() == R.Device(cam.Model(), false, 0, [], false, {})
    {
      this.cam := cam;
      recordRunning, recordHeap, msgVideo, held := false, 0, false, {};
      slots := new Option<nat>[0];
    }

    ghost function Model(): R.Device
      reads this, cam, slots
    {
      R.Device(cam.Model(), recordRunning, recordHeap, slots[..], msgVideo, held)
    }

    method StartRecording(driver: R.Start) returns (ok: bool)
      modifies this, cam
      ensures Model() == R.StartRecording(old(Model()), driver)
      ensures fresh(slots) && ok == (old(recordRunning) || recordRunning)
      ensures old(R.Owned(Model())) && driver.Ready? ==> (R.Owned(Model()) <==> old(held) == {})
    {
      ghost var before := Model();
      slots := new Option<nat>[R.MAX_BUFFERS](_ => None);
      assert slots[..] == R.Unset();
      recordHeap := recordHeap + 1;
      ok := true;
      hide R.StartRecord;
      if !recordRunning {
        var ret := cam.StartRecord(driver);
        ok := ret >= 0;
        recordRunning := ok;
      }
      StartOwned(before, Model(), driver);
    }

    lemma StartOwned(before: R.Device, after: R.Device, driver: R.Start)
      requires after == R.StartRecording(before, driver)
      ensures R.Owned(before) && driver.Ready? ==> (R.Owned(after) <==> before.held == {})
    {
      if R.Owned(before) && driver.Ready? {
        R.StartKeepsOwnedIff(before);
      }
    }

    method StopRecording(driver: R.Stop)
      modifies this, cam
      ensures Model() == R.StopRecording(old(Model()), driver)
      ensures old(R.Owned(Model())) ==> (R.Owned(Model()) <==> !old(recordRunning) || driver.Done?)
    {
      ghost var before := Model();
      if recordRunning {
        var ret := cam.StopRecord(driver);
        if ret >= 0 {
          recordRunning := false;
        }
      }
      assert Model() == R.StopRecording(before, driver);
      hide R.StopRecording;
      if R.Owned(before) {
        R.StopKeepsOwnedIff(before, driver);
      }
    }

    /** The last part of previewThread. */
    method RecordFrame(frame: int, addresses: bool)
      requires recordRunning ==> slots.Length == R.MAX_BUFFERS && cam.record <= R.ALL
      modifies this`held, cam, slots
      ensures Model() == R.RecordFrame(old(Model()), frame, addresses)
      ensures old(R.Owned(Model())) && addresses ==> R.Owned(Model())
    {
      ghost var before := Model();
      FillSlot(frame, addresses);
      hide R.RecordFrame;
      if R.Owned(before) {
        R.FrameKeepsOwnedIff(before, frame, addresses);
      }
    }

    method FillSlot(frame: int, addresses: bool)
      requires recordRunning ==> slots.Length == R.MAX_BUFFERS && cam.record <= R.ALL
      modifies this`held, cam, slots
      ensures Model() == R.RecordFrame(old(Model()), frame, addresses)
    {
      if !recordRunning {
        return;
      }
      hide R.GetRecordFrame;
      IndexFits(cam.Model(), frame);
      var index := cam.GetRecordFrame(frame);
      if index < 0 {
        return;
      }
      if !addresses {
        return;
      }
      slots[index] := Some(index);
      if msgVideo {
        held := held + {R.Frame(recordHeap, index)};
      } else {
        cam.ReleaseRecordFrame(index);
      }
    }

    lemma IndexFits(c: R.Camera, frame: int)
      requires c.record <= R.ALL
      ensures R.GetRecordFrame(c, frame).1 < R.MAX_BUFFERS
    {
    }

    /** The client gives a frame back by a pointer into the memory of the heap it came from; only the memory
        of the current heap is known to be the slots. */
    method ReleaseRecordingFrame(ghost f: R.Frame, memory: array<Option<nat>>, at: nat)
      requires at == f.index < memory.Length && memory[at].Some?
      requires f.heap == recordHeap ==> memory == slots
      modifies this`held, cam
      ensures Model() == R.ReleaseRecordingFrame(old(Model()), f, old(memory[at].value))
      ensures old(R.Owned(Model())) && f in old(held) ==> R.Owned(Model())
    {
      ghost var before, stray := Model(), memory[at].value;
      cam.ReleaseRecordFrame(memory[at].value);
      held := held - {f};
      assert Model() == R.ReleaseRecordingFrame(before, f, stray);
      hide R.ReleaseRecordingFrame;
      if R.Owned(before) && f in before.held {
        R.ReleaseKeepsOwned(before, f, stray);
      }
    }
  }
}
