/** The charger's battery animation and keys on values: what one pass of the event loop does. Times are
    milliseconds of the monotonic clock. */
module ChargerScreen {
  import opened Options

  const BATTERY_UNKNOWN_TIME := 2000
  const UNPLUGGED_SHUTDOWN_TIME := 1000
  const POWER_ON_KEY_TIME := 2000
  const SCREEN_ON_BATTERY_THRESH := 0
  const KEY_HOME: nat := 102
  const KEY_POWER: nat := 116
  const KEY_MAX: nat := 0x2ff

  datatype Frame = Frame(dispTime: int, minCapacity: int, levelOnly: bool)

  /** num_frames is reset to 0 when an image is missing; the table itself stays. */
  datatype Anim = Anim(run: bool, frames: seq<Frame>, curFrame: nat, numFrames: nat,
                       curCycle: nat, numCycles: nat, capacity: int)

  datatype Key = Key(pending: bool, down: bool, timestamp: int)

  datatype Charger = Charger(anim: Anim, nextScreen: int, nextKeyCheck: int, nextSupplyCheck: int,
                             keys: seq<Key>, inited: bool, rebooted: bool, off: bool)

  /** A charger that has rebooted or powered off does nothing more. */
  predicate Gone(c: Charger) {
    c.rebooted || c.off
  }

  /** What was put on the screen: nothing, a blank, the picture for an unknown battery, or a frame. */
  datatype Drawn = Nothing | Blank | Unknown | Level(frame: nat, opening: bool)

  // ----------------------------------------------------------------------------------- the table

  /** The loop that looks for the first level above the capacity. */
  function FirstAbove(frames: seq<Frame>, num: nat, cap: int, i: nat): (r: nat)
    requires num <= |frames| && i <= num
    ensures i <= r <= num
    ensures forall k | i <= k < r :: frames[k].minCapacity <= cap
    ensures r < num ==> cap < frames[r].minCapacity
    decreases num - i
  {
    if i < num && !(cap < frames[i].minCapacity) then FirstAbove(frames, num, cap, i + 1) else i
  }

  /** The loop that skips the frames shown only as a level. */
  function NextShown(frames: seq<Frame>, num: nat, i: nat): (r: nat)
    requires num <= |frames|
    ensures i <= r && (i <= num ==> r <= num)
    ensures forall k | i <= k < r :: k < num && frames[k].levelOnly
    ensures r < num ==> !frames[r].levelOnly
    decreases if i < num then num - i else 0
  {
    if i < num && frames[i].levelOnly then NextShown(frames, num, i + 1) else i
  }

  predicate ValidTable(a: Anim) {
    0 < |a.frames| && a.numFrames <= |a.frames|
  }

  /** Every frame is shown for some time, which may be doubled in an int. */
  predicate ShowsAll(a: Anim) {
    forall k | 0 <= k < |a.frames| :: 0 < a.frames[k].dispTime < 0x4000_0000
  }

  /** What holds of the animation between calls. */
  predicate ValidAnim(a: Anim) {
    && ValidTable(a)
    && a.curCycle <= a.numCycles
    && (a.curCycle == a.numCycles ==> a.curFrame == 0)
    && (a.curFrame > 0 ==>
          a.curFrame < a.numFrames && a.capacity >= 0 && !a.frames[a.curFrame].levelOnly)
  }

  // ------------------------------------------------------------------------- update_screen_state

  predicate Due(c: Charger, now: int) {
    c.anim.run && now >= c.nextScreen
  }

  function Reset(a: Anim): Anim {
    a.(curCycle := 0, curFrame := 0, run := false)
  }

  /** A cycle starts: the battery is read and the frame of its level is taken, for twice its time. */
  function Open(a: Anim, cap: int): (Anim, int)
    requires ValidAnim(a)
  {
    if a.curFrame != 0 then (a, a.frames[a.curFrame].dispTime)
    else if cap >= 0 && a.numFrames != 0 then
      var first := FirstAbove(a.frames, a.numFrames, cap, 1) - 1;
      (a.(curFrame := first, capacity := cap), a.frames[first].dispTime * 2)
    else (a.(capacity := cap), a.frames[0].dispTime)
  }

  function Advance(a: Anim): Anim
    requires a.numFrames <= |a.frames|
  {
    var next := NextShown(a.frames, a.numFrames, a.curFrame + 1);
    if next >= a.numFrames then a.(curFrame := 0, curCycle := a.curCycle + 1) else a.(curFrame := next)
  }

  /** cap0 and cap1 are what the battery says when the screen is first switched on and when a cycle
      starts; it is at most 100, and negative if it could not be read. */
  function UpdateScreen(c: Charger, now: int, cap0: int, cap1: int): (Charger, Drawn)
    requires ValidAnim(c.anim)
  {
    if !Due(c, now) then (c, Nothing)
    else if !c.inited && cap0 < SCREEN_ON_BATTERY_THRESH then
      (c.(anim := c.anim.(run := false), nextScreen := -1), Nothing)
    else if c.anim.curCycle == c.anim.numCycles then
      (c.(inited := true, anim := Reset(c.anim), nextScreen := -1), Blank)
    else
      var (a, time) := Open(c.anim, cap1);
      if a.numFrames == 0 || a.capacity < 0 then
        (c.(inited := true, anim := a.(curCycle := a.curCycle + 1), nextScreen := now + BATTERY_UNKNOWN_TIME),
         Unknown)
      else
        (c.(inited := true, anim := Advance(a), nextScreen := now + time),
         Level(a.curFrame, c.anim.curFrame == 0))
  }

  // ------------------------------------------------------------------------------------- the keys

  predicate ValidKeys(c: Charger) {
    |c.keys| == KEY_MAX + 1
  }

  /** set_key_callback at time now. */
  function SetKey(c: Charger, code: nat, down: bool, now: int): Charger
    requires ValidKeys(c)
  {
    if code > KEY_MAX || c.keys[code].down == down then c
    else
      var key := c.keys[code];
      c.(keys := c.keys[code := Key(true, down, if down then now else key.timestamp)])
  }

  function SetNextKeyCheck(c: Charger, at: int): Charger {
    if c.nextKeyCheck == -1 || at < c.nextKeyCheck then c.(nextKeyCheck := at) else c
  }

  function Kick(c: Charger): Charger {
    c.(anim := c.anim.(run := true))
  }

  function ProcessKey(c: Charger, code: nat, now: int): Charger
    requires ValidKeys(c) && code <= KEY_MAX
  {
    var key := c.keys[code];
    var c' :=
      if code == KEY_POWER && key.down then
        if now >= key.timestamp + POWER_ON_KEY_TIME then c.(rebooted := true)
        else SetNextKeyCheck(c, key.timestamp + POWER_ON_KEY_TIME)
      else if key.pending then Kick(c)
      else c;
    c'.(keys := c'.keys[code := key.(pending := false)])
  }

  /** handle_input_state; a reboot does not come back. */
  function HandleInput(c: Charger, now: int): Charger
    requires ValidKeys(c)
  {
    var c1 := ProcessKey(c, KEY_POWER, now);
    if c1.rebooted then c1
    else
      var c2 := ProcessKey(c1, KEY_HOME, now);
      if c2.nextKeyCheck != -1 && now > c2.nextKeyCheck then c2.(nextKeyCheck := -1) else c2
  }

  // ------------------------------------------------------------------------------------- the wait

  const INT64_MAX := 0x7fff_ffff_ffff_ffff

  /** The conversion of a long timeout to int. */
  function ToInt(x: int): int {
    var low := x % 0x1_0000_0000;
    if low >= 0x8000_0000 then low - 0x1_0000_0000 else low
  }

  /** The timeout handed to the poll, -1 for none. */
  function Timeout(c: Charger, now: int): int {
    var screen := if c.nextScreen != -1 then c.nextScreen else INT64_MAX;
    var next := if c.nextKeyCheck != -1 && c.nextKeyCheck < screen then c.nextKeyCheck else screen;
    if next != -1 && next != INT64_MAX then ToInt(if next - now > 0 then next - now else 0) else -1
  }

  // ---------------------------------------------------------------------------------- event_loop

  /** check_status; online is what the supplies say when they are looked at. */
  function CheckStatus(c: Charger, now: int, online: bool): Charger {
    if now < c.nextSupplyCheck then c
    else if online then c.(nextSupplyCheck := now + UNPLUGGED_SHUTDOWN_TIME)
    else c.(off := true)
  }

  /** One pass of the loop up to its wait. */
  function Pass(c: Charger, now: int, online: bool, cap0: int, cap1: int): (Charger, Drawn)
    requires ValidKeys(c) && ValidAnim(c.anim)
  {
    var c1 := HandleInput(c, now);
    if c1.rebooted then (c1, Nothing)
    else
      var c2 := CheckStatus(c1, now, online);
      if c2.off then (c2, Nothing) else UpdateScreen(c2, now, cap0, cap1)
  }
}
