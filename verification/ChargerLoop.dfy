/** The charger's structs, changed in place by the functions of its event loop. Each method does what the
    function of ChargerScreen of the same purpose says of the values. */
module ChargerLoop {
  import S = ChargerScreen
  import R = ChargerRuns

  class Animation {
    var run: bool
    const frames: seq<S.Frame>
    var curFrame: nat
    var numFrames: nat
    var curCycle: nat
    var numCycles: nat
    var capacity: int

    /** The table with every image loaded. */
    constructor (frames: seq<S.Frame>, numCycles: nat)
      requires 0 < |frames|
      ensures Model() == S.Anim(false, frames, 0, |frames|, 0, numCycles, 0) && S.ValidAnim(Model())
    {
      run, curFrame, curCycle, capacity := false, 0, 0, 0;
      this.frames, this.numFrames, this.numCycles := frames, |frames|, numCycles;
    }

    ghost function Model(): S.Anim
      reads this
    {
      S.Anim(run, frames, curFrame, numFrames, curCycle, numCycles, capacity)
    }

    /** An image could not be loaded: one picture, one cycle. */
    method DropFrames()
      requires S.ValidAnim(Model()) && curFrame == curCycle == 0
      modifies this
      ensures Model() == old(Model()).(numFrames := 0, numCycles := 1) && S.ValidAnim(Model())
    {
      numFrames, numCycles := 0, 1;
    }

    method Kick()
      modifies this
      ensures Model() == old(Model()).(run := true)
    {
      run := true;
    }

    method Reset()
      modifies this
      ensures Model() == S.Reset(old(Model()))
    {
      curCycle := 0;
      curFrame := 0;
      run := false;
    }

    /** Sets up the animation if it is at its start, and says how long the frame is shown. */
    method Open(cap: int) returns (dispTime: int)
      requires S.ValidAnim(Model())
      modifies this
      ensures (Model(), dispTime) == S.Open(old(Model()), cap)
    {
      dispTime := frames[curFrame].dispTime;
      if curFrame == 0 {
        if cap >= 0 && numFrames != 0 {
          var i := 1;
          while i < numFrames
            invariant 1 <= i <= numFrames
            invariant S.FirstAbove(frames, numFrames, cap, 1) == S.FirstAbove(frames, numFrames, cap, i)
          {
            if cap < frames[i].minCapacity {
              break;
            }
            i := i + 1;
          }
          curFrame := i - 1;
          dispTime := frames[curFrame].dispTime * 2;
        }
        capacity := cap;
      }
    }

    method Advance()
      requires numFrames <= |frames|
      modifies this
      ensures Model() == S.Advance(old(Model()))
      ensures
        if curFrame == 0 then
          curCycle == old(curCycle) + 1 && forall k | old(curFrame) < k < numFrames :: frames[k].levelOnly
        else
          && curCycle == old(curCycle) && old(curFrame) < curFrame < numFrames && !frames[curFrame].levelOnly
          && forall k | old(curFrame) < k < curFrame :: frames[k].levelOnly
    {
      curFrame := curFrame + 1;
      while curFrame < numFrames && frames[curFrame].levelOnly
        invariant old(curFrame) < curFrame && Model() == old(Model()).(curFrame := curFrame)
        invariant forall k | old(curFrame) < k < curFrame :: k < numFrames && frames[k].levelOnly
        invariant S.NextShown(frames, numFrames, old(curFrame) + 1) == S.NextShown(frames, numFrames, curFrame)
      {
        curFrame := curFrame + 1;
      }
      if curFrame >= numFrames {
        curCycle := curCycle + 1;
        curFrame := 0;
      }
    }
  }

  class Charger {
    var nextScreenTransition: int
    var nextKeyCheck: int
    var nextSupplyCheck: int
    const keys: array<S.Key>
    const battAnim: Animation
    var minuiInited: bool
    var rebooted: bool
    var off: bool

    /** main: the supplies are looked at, and the animation is started, to be drawn at once. */
    constructor (battAnim: Animation, keys: array<S.Key>, now: int, supplyTime: int)
      requires S.ValidAnim(battAnim.Model()) && keys.Length == S.KEY_MAX + 1
      modifies battAnim
      ensures this.battAnim == battAnim && this.keys == keys && Valid()
      ensures battAnim.Model() == S.Reset(old(battAnim.Model())).(run := true)
      ensures Model() == S.Charger(battAnim.Model(), now - 1, -1, supplyTime + S.UNPLUGGED_SHUTDOWN_TIME, keys[..],
                                   false, false, false)
    {
      nextScreenTransition, nextKeyCheck, minuiInited, rebooted, off := now - 1, -1, false, false, false;
      nextSupplyCheck := supplyTime + S.UNPLUGGED_SHUTDOWN_TIME;
      this.keys, this.battAnim := keys, battAnim;
      new;
      battAnim.Reset();
      battAnim.Kick();
    }

    ghost predicate Valid()
      reads this, battAnim
    {
      keys.Length == S.KEY_MAX + 1 && S.ValidAnim(battAnim.Model())
    }

    ghost function Model(): (c: S.Charger)
      reads this, battAnim, keys
    {
      S.Charger(battAnim.Model(), nextScreenTransition, nextKeyCheck, nextSupplyCheck, keys[..], minuiInited,
                rebooted, off)
    }

    method UpdateScreenState(now: int, cap0: int, cap1: int) returns (drawn: S.Drawn)
      requires Valid()
      modifies this, battAnim
      ensures (Model(), drawn) == S.UpdateScreen(old(Model()), now, cap0, cap1)
    {
      drawn := S.Nothing;
      if !battAnim.run || now < nextScreenTransition {
        return;
      }
      if !minuiInited {
        if cap0 < S.SCREEN_ON_BATTERY_THRESH {
          battAnim.run := false;
          nextScreenTransition := -1;
          return;
        }
        minuiInited := true;
      }
      if battAnim.curCycle == battAnim.numCycles {
        battAnim.Reset();
        nextScreenTransition := -1;
        return S.Blank;
      }
      var opening := battAnim.curFrame == 0;
      var dispTime := battAnim.Open(cap1);
      if battAnim.numFrames == 0 || battAnim.capacity < 0 {
        nextScreenTransition := now + S.BATTERY_UNKNOWN_TIME;
        battAnim.curCycle := battAnim.curCycle + 1;
        return S.Unknown;
      }
      drawn := S.Level(battAnim.curFrame, opening);
      nextScreenTransition := now + dispTime;
      battAnim.Advance();
    }

    /** set_key_callback */
    method SetKey(code: nat, value: int, now: int) returns (ret: int)
      requires Valid()
      modifies keys
      ensures Model() == S.SetKey(old(Model()), code, value != 0, now)
      ensures ret == if code > S.KEY_MAX then -1 else 0
    {
      var down := value != 0;
      if code > S.KEY_MAX {
        return -1;
      }
      if keys[code].down == down {
        return 0;
      }
      if down {
        keys[code] := keys[code].(timestamp := now);
      }
      keys[code] := keys[code].(down := down);
      keys[code] := keys[code].(pending := true);
      return 0;
    }

    method SetNextKeyCheck(key: S.Key, timeout: int)
      modifies this
      ensures Model() == S.SetNextKeyCheck(old(Model()), key.timestamp + timeout)
    {
      var at := key.timestamp + timeout;
      if nextKeyCheck == -1 || at < nextKeyCheck {
        nextKeyCheck := at;
      }
    }

    method ProcessKey(code: nat, now: int)
      requires Valid() && code <= S.KEY_MAX
      modifies this, battAnim, keys
      ensures Model() == S.ProcessKey(old(Model()), code, now) && Valid()
    {
      var key := keys[code];
      if code == S.KEY_POWER {
        if key.down {
          var rebootTimeout := key.timestamp + S.POWER_ON_KEY_TIME;
          if now >= rebootTimeout {
            rebooted := true;
          } else {
            SetNextKeyCheck(key, S.POWER_ON_KEY_TIME);
          }
        } else {
          if key.pending {
            battAnim.Kick();
          }
        }
      } else {
        if key.pending {
          battAnim.Kick();
        }
      }
      keys[code] := keys[code].(pending := false);
    }

    method HandleInputState(now: int)
      requires Valid()
      modifies this, battAnim, keys
      ensures Model() == S.HandleInput(old(Model()), now) && Valid()
    {
      hide S.ProcessKey;
      ProcessKey(S.KEY_POWER, now);
      if rebooted {
        return;
      }
      ProcessKey(S.KEY_HOME, now);
      if nextKeyCheck != -1 && now > nextKeyCheck {
        nextKeyCheck := -1;
      }
    }

    method WaitNextEvent(now: int) returns (timeout: int)
      requires Valid()
      ensures timeout == S.Timeout(Model(), now)
    {
      var nextEvent := S.INT64_MAX;
      if nextScreenTransition != -1 {
        nextEvent := nextScreenTransition;
      }
      if nextKeyCheck != -1 && nextKeyCheck < nextEvent {
        nextEvent := nextKeyCheck;
      }
      if nextEvent != -1 && nextEvent != S.INT64_MAX {
        timeout := if nextEvent - now > 0 then nextEvent - now else 0;
      } else {
        timeout := -1;
      }
      timeout := S.ToInt(timeout);
    }

    method CheckStatus(now: int, online: bool)
      modifies this
      ensures Model() == S.CheckStatus(old(Model()), now, online)
    {
      if now >= nextSupplyCheck {
        if online {
          nextSupplyCheck := now + S.UNPLUGGED_SHUTDOWN_TIME;
          return;
        }
        off := true;
      }
    }

    /** One round of event_loop. */
    method Loop(now: int, online: bool, cap0: int, cap1: int) returns (drawn: S.Drawn, timeout: int)
      requires Valid()
      modifies this, battAnim, keys
      ensures (Model(), drawn) == S.Pass(old(Model()), now, online, cap0, cap1)
      ensures Valid() && (!S.Gone(Model()) ==> timeout == S.Timeout(Model(), now))
    {
      hide S.HandleInput, S.UpdateScreen, S.Timeout;
      drawn, timeout := S.Nothing, -1;
      R.PassKeeps(Model(), now, online, cap0, cap1);
      HandleInputState(now);
      if rebooted {
        return;
      }
      CheckStatus(now, online);
      if off {
        return;
      }
      drawn := UpdateScreenState(now, cap0, cap1);
      timeout := WaitNextEvent(now);
    }
  }
}
