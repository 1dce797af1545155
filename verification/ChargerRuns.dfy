/** What the charger's event loop keeps over whole runs. */
module ChargerRuns {
  import opened ChargerScreen

  // ------------------------------------------------------------------------------------ one pass

  function Width(a: Anim): nat {
    if a.numFrames == 0 then 1 else a.numFrames
  }

  /** The due calls that are left at most before the one that ends the animation. */
  function Left(a: Anim): int {
    (a.numCycles - a.curCycle) * Width(a) - a.curFrame
  }

  lemma LeftIsNatural(a: Anim)
    requires ValidAnim(a)
    ensures 0 <= Left(a) <= a.numCycles * Width(a)
    ensures Left(a) == 0 ==> a.curCycle == a.numCycles
  {
    var cycles := a.numCycles - a.curCycle;
    assert a.numCycles * Width(a) == cycles * Width(a) + a.curCycle * Width(a);
    assert a.curCycle * Width(a) >= 0;
    if cycles > 0 {
      assert cycles * Width(a) >= Width(a);
    }
  }

  ghost predicate Ahead(a: Anim, b: Anim) {
    a.curCycle < b.curCycle || (a.curCycle == b.curCycle && a.curFrame < b.curFrame)
  }

  lemma OpenKeeps(a: Anim, cap: int)
    requires ValidAnim(a) && a.curCycle < a.numCycles
    ensures var (b, time) := Open(a, cap);
      && b == a.(curFrame := b.curFrame, capacity := b.capacity)
      && (ShowsAll(a) ==> 0 < time < 0x8000_0000)
      && a.curFrame <= b.curFrame
      && (b.numFrames == 0 || b.capacity < 0 ==> b.curFrame == 0)
      && (b.numFrames != 0 ==> b.curFrame < b.numFrames)
  {
  }

  lemma AdvanceGoesOn(a: Anim)
    requires ValidTable(a) && a.curCycle < a.numCycles && a.curFrame < a.numFrames && a.capacity >= 0
    ensures var b := Advance(a); ValidAnim(b) && Ahead(a, b) && Left(b) < Left(a)
    ensures Advance(a) == a.(curFrame := Advance(a).curFrame, curCycle := Advance(a).curCycle)
  {
    var b := Advance(a);
    if b.curFrame == 0 {
      assert (a.numCycles - a.curCycle) * Width(a) == (a.numCycles - b.curCycle) * Width(a) + Width(a);
    }
  }

  lemma UnknownGoesOn(a: Anim, shown: Anim)
    requires ValidAnim(a) && a.curFrame == shown.curFrame == 0 && a.curCycle < a.numCycles
    requires shown == a.(capacity := shown.capacity)
    ensures var b := shown.(curCycle := a.curCycle + 1); ValidAnim(b) && Left(b) < Left(a)
  {
    var b := shown.(curCycle := a.curCycle + 1);
    assert (a.numCycles - a.curCycle) * Width(a) == (a.numCycles - b.curCycle) * Width(b) + Width(a);
  }

  lemma SameCycle(a: Anim, b: Anim)
    requires b == a.(curFrame := b.curFrame, capacity := b.capacity) && a.curFrame <= b.curFrame
    ensures Left(b) <= Left(a)
  {
  }

  /** A due call ends the animation or takes it strictly forward, never past the last cycle. */
  lemma DueCallGoesOn(c: Charger, now: int, cap0: int, cap1: int)
    requires ValidAnim(c.anim) && Due(c, now)
    ensures var c' := UpdateScreen(c, now, cap0, cap1).0;
      && ValidAnim(c'.anim)
      && (!c'.anim.run || (Ahead(c.anim, c'.anim) && Left(c'.anim) < Left(c.anim)))
      && (c.anim.curCycle == c.anim.numCycles ==> !c'.anim.run)
  {
    if !(!c.inited && cap0 < SCREEN_ON_BATTERY_THRESH) && c.anim.curCycle != c.anim.numCycles {
      OpenKeeps(c.anim, cap1);
      var a := Open(c.anim, cap1).0;
      hide Open;
      if a.numFrames == 0 || a.capacity < 0 {
        UnknownGoesOn(c.anim, a);
      } else {
        AdvanceGoesOn(a);
        hide Advance;
        SameCycle(c.anim, a);
      }
    }
  }

  predicate Ascending(a: Anim) {
    forall j, k | 0 <= j < k < |a.frames| :: a.frames[j].minCapacity <= a.frames[k].minCapacity
  }

  lemma {:induction false} FirstAboveSplits(a: Anim, cap: int, i: nat)
    requires a.numFrames <= |a.frames| && i <= a.numFrames && Ascending(a)
    ensures forall k | i <= k < a.numFrames ::
              a.frames[k].minCapacity <= cap <==> k < FirstAbove(a.frames, a.numFrames, cap, i)
  {
    var r := FirstAbove(a.frames, a.numFrames, cap, i);
    forall k | i <= k < a.numFrames
      ensures a.frames[k].minCapacity <= cap <==> k < r
    {
      if r < k {
        assert a.frames[r].minCapacity <= a.frames[k].minCapacity;
      }
    }
  }

  /** With an ascending table a cycle opens on the highest level that is not above the capacity (the first
      frame stands for everything below); every other frame drawn is not one kept for its level only. The
      opening frame is shown for twice its time. */
  lemma DrawnFrameFits(c: Charger, now: int, cap0: int, cap1: int)
    requires ValidAnim(c.anim) && Ascending(c.anim)
    requires UpdateScreen(c, now, cap0, cap1).1.Level?
    ensures var d := UpdateScreen(c, now, cap0, cap1).1;
      && d.frame < c.anim.numFrames
      && (d.opening <==> c.anim.curFrame == 0)
      && (d.opening ==>
            forall k | 0 < k < c.anim.numFrames :: c.anim.frames[k].minCapacity <= cap1 <==> k <= d.frame)
      && (c.anim.frames[d.frame].levelOnly ==> d.opening)
      && UpdateScreen(c, now, cap0, cap1).0.nextScreen
         == now + c.anim.frames[d.frame].dispTime * if d.opening then 2 else 1
  {
    if c.anim.curFrame == 0 {
      FirstAboveSplits(c.anim, cap1, 1);
    }
  }

  // ----------------------------------------------------------------------------------- whole runs

  /** A pass of the loop, or a key that changes during its wait. */
  datatype Event = Tick(now: int, online: bool, cap0: int, cap1: int) | KeyEvent(code: nat, down: bool, now: int)

  ghost predicate Valid(c: Charger) {
    ValidKeys(c) && ValidAnim(c.anim)
  }

  /** Handling keys touches nothing but the keys, their deadline, and that the animation runs. */
  ghost predicate OnlyKeys(c: Charger, c': Charger) {
    && Valid(c') && c'.nextScreen == c.nextScreen && c'.anim == c.anim.(run := c'.anim.run)
    && (c.anim.run ==> c'.anim.run) && c'.inited == c.inited
    && c'.nextSupplyCheck == c.nextSupplyCheck && c'.off == c.off
  }

  lemma KeyKeeps(c: Charger, code: nat, now: int)
    requires Valid(c) && code <= KEY_MAX
    ensures OnlyKeys(c, ProcessKey(c, code, now))
  {
  }

  lemma InputKeeps(c: Charger, now: int)
    requires Valid(c)
    ensures OnlyKeys(c, HandleInput(c, now))
  {
    KeyKeeps(c, KEY_POWER, now);
    KeyKeeps(ProcessKey(c, KEY_POWER, now), KEY_HOME, now);
    hide ProcessKey;
  }

  /** The charger as a pass comes to the drawing, if it does. */
  function Ready(c: Charger, now: int, online: bool): Charger
    requires ValidKeys(c)
  {
    CheckStatus(HandleInput(c, now), now, online)
  }

  lemma ReadyKeeps(c: Charger, now: int, online: bool)
    requires Valid(c)
    ensures var c' := Ready(c, now, online);
      && Valid(c') && c'.nextScreen == c.nextScreen && c'.anim == c.anim.(run := c'.anim.run)
      && (c.anim.run ==> c'.anim.run) && c'.inited == c.inited
      && c'.keys == HandleInput(c, now).keys && c'.nextKeyCheck == HandleInput(c, now).nextKeyCheck
      && c'.rebooted == HandleInput(c, now).rebooted
  {
    InputKeeps(c, now);
    hide HandleInput;
  }

  /** A pass is a drawing of what is ready, unless the charger is gone by then. */
  lemma PassDraws(c: Charger, now: int, online: bool, cap0: int, cap1: int)
    requires Valid(c) && !c.off
    ensures Valid(Ready(c, now, online))
    ensures !Gone(Ready(c, now, online)) ==>
      Pass(c, now, online, cap0, cap1) == UpdateScreen(Ready(c, now, online), now, cap0, cap1)
    ensures Gone(Ready(c, now, online)) ==>
      var c' := Pass(c, now, online, cap0, cap1).0;
      Gone(c') && c' in {HandleInput(c, now), Ready(c, now, online)}
  {
    InputKeeps(c, now);
    ReadyKeeps(c, now, online);
    hide HandleInput, UpdateScreen;
  }

  lemma PassKeeps(c: Charger, now: int, online: bool, cap0: int, cap1: int)
    requires Valid(c)
    ensures Valid(Pass(c, now, online, cap0, cap1).0)
  {
    InputKeeps(c, now);
    var c1 := CheckStatus(HandleInput(c, now), now, online);
    hide HandleInput;
    assert Valid(c1);
    if Due(c1, now) {
      DueCallGoesOn(c1, now, cap0, cap1);
      UpdateKeepsKeys(c1, now, cap0, cap1);
      hide UpdateScreen;
    }
  }

  lemma UpdateKeepsKeys(c: Charger, now: int, cap0: int, cap1: int)
    requires ValidAnim(c.anim)
    ensures var c' := UpdateScreen(c, now, cap0, cap1).0;
      && c'.keys == c.keys && c'.nextKeyCheck == c.nextKeyCheck && c'.nextSupplyCheck == c.nextSupplyCheck
      && c'.rebooted == c.rebooted && c'.off == c.off
  {
    hide Open, Advance;
  }

  ghost function After(c: Charger, e: Event): (c': Charger)
    requires Valid(c)
    ensures Valid(c')
  {
    match e
    case Tick(now, online, cap0, cap1) =>
      PassKeeps(c, now, online, cap0, cap1);
      if Gone(c) then c else Pass(c, now, online, cap0, cap1).0
    case KeyEvent(code, down, now) => SetKey(c, code, down, now)
  }

  ghost function AfterAll(c: Charger, events: seq<Event>): (c': Charger)
    requires Valid(c)
    ensures Valid(c')
    decreases |events|
  {
    if events == [] then c else After(AfterAll(c, events[..|events| - 1]), events[|events| - 1])
  }

  /** The pass calls update_screen_state when it is due. */
  ghost predicate DueEvent(c: Charger, e: Event)
    requires Valid(c)
  {
    e.Tick? && !Gone(c) && var c1 := Ready(c, e.now, e.online); !Gone(c1) && Due(c1, e.now)
  }

  ghost function DueCalls(c: Charger, events: seq<Event>): nat
    requires Valid(c)
    decreases |events|
  {
    if events == [] then 0
    else
      var before := events[..|events| - 1];
      DueCalls(c, before) + if DueEvent(AfterAll(c, before), events[|events| - 1]) then 1 else 0
  }

  lemma EventApproachesEnd(c: Charger, e: Event)
    requires Valid(c) && c.anim.run && After(c, e).anim.run
    ensures var c' := After(c, e);
      && c'.anim.frames == c.anim.frames
      && c'.anim.numFrames == c.anim.numFrames && c'.anim.numCycles == c.anim.numCycles
      && Left(c'.anim) <= Left(c.anim) - if DueEvent(c, e) then 1 else 0
  {
    if e.Tick? && !Gone(c) {
      InputKeeps(c, e.now);
      ReadyKeeps(c, e.now, e.online);
      PassDraws(c, e.now, e.online, e.cap0, e.cap1);
      var c1 := Ready(c, e.now, e.online);
      assert c1.anim == c.anim;
      hide HandleInput, Ready, Pass;
      if !Gone(c1) && Due(c1, e.now) {
        DueCallGoesOn(c1, e.now, e.cap0, e.cap1);
        UpdateKeepsTable(c1, e.now, e.cap0, e.cap1);
      }
    }
  }

  lemma UpdateKeepsTable(c: Charger, now: int, cap0: int, cap1: int)
    requires ValidAnim(c.anim)
    ensures var a := UpdateScreen(c, now, cap0, cap1).0.anim;
      a.frames == c.anim.frames && a.numFrames == c.anim.numFrames && a.numCycles == c.anim.numCycles
  {
  }

  /** The animation ends: however the battery and the keys behave, while it is still running there were no
      more due calls than its cycles have frames. The call after those ends it (DueCallGoesOn). */
  lemma {:induction false} AnimationEnds(c: Charger, events: seq<Event>)
    requires Valid(c) && c.anim.run
    requires forall k | 0 <= k <= |events| :: AfterAll(c, events[..k]).anim.run
    ensures var c' := AfterAll(c, events);
      && DueCalls(c, events) + Left(c'.anim) <= Left(c.anim) <= c.anim.numCycles * Width(c.anim)
      && 0 <= Left(c'.anim)
    decreases |events|
  {
    LeftIsNatural(c.anim);
    LeftIsNatural(AfterAll(c, events).anim);
    if events != [] {
      var before := events[..|events| - 1];
      forall k | 0 <= k <= |before|
        ensures AfterAll(c, before[..k]).anim.run
      {
        assert before[..k] == events[..k];
      }
      AnimationEnds(c, before);
      assert events[..|events|] == events;
      assert AfterAll(c, events[..|events|]).anim.run;
      assert AfterAll(c, events[..|events| - 1]).anim.run;
      hide Left, Valid, After, DueEvent;
      EventApproachesEnd(AfterAll(c, before), events[|events| - 1]);
    }
  }

  /** So once there have been that many due calls and one more, the animation has stopped in between. */
  lemma AnimationHasEnded(c: Charger, events: seq<Event>)
    requires Valid(c) && c.anim.run && DueCalls(c, events) > c.anim.numCycles * Width(c.anim)
    ensures exists k | 0 <= k <= |events| :: !AfterAll(c, events[..k]).anim.run
  {
    hide Valid, DueCalls, Width;
    if forall k | 0 <= k <= |events| :: AfterAll(c, events[..k]).anim.run {
      AnimationEnds(c, events);
    }
  }

  // ------------------------------------------------------------------------------------ the waits

  /** Every frame takes its time, and a scheduled transition belongs to a running animation. */
  ghost predicate Scheduled(c: Charger) {
    ShowsAll(c.anim) && (c.nextScreen != -1 ==> c.anim.run)
  }

  lemma UpdateSchedules(c: Charger, now: int, cap0: int, cap1: int)
    requires ValidAnim(c.anim) && Scheduled(c) && now >= 0
    ensures var c' := UpdateScreen(c, now, cap0, cap1).0;
      && Scheduled(c')
      && (c'.anim.run <==> c'.nextScreen != -1)
      && (c'.anim.run ==> now < c'.nextScreen <= now + 0x8000_0000 || c' == c)
      && (c'.anim.run ==> now < c'.nextScreen)
  {
    UpdateKeepsTable(c, now, cap0, cap1);
    if Due(c, now) && !(!c.inited && cap0 < SCREEN_ON_BATTERY_THRESH) && c.anim.curCycle != c.anim.numCycles {
      OpenKeeps(c.anim, cap1);
      hide Open, Advance;
    }
  }

  lemma EventSchedules(c: Charger, e: Event)
    requires Valid(c) && Scheduled(c) && (e.Tick? ==> e.now >= 0)
    ensures Scheduled(After(c, e))
    ensures e.Tick? && !Gone(After(c, e)) ==>
      var c' := After(c, e);
      (c'.anim.run <==> c'.nextScreen != -1) && (c'.anim.run ==> e.now < c'.nextScreen)
  {
    if e.Tick? && !Gone(c) {
      InputKeeps(c, e.now);
      ReadyKeeps(c, e.now, e.online);
      PassDraws(c, e.now, e.online, e.cap0, e.cap1);
      var c1 := Ready(c, e.now, e.online);
      assert Scheduled(c1) && Scheduled(HandleInput(c, e.now));
      hide HandleInput, Ready, Pass;
      if !Gone(c1) {
        UpdateSchedules(c1, e.now, e.cap0, e.cap1);
        UpdateKeepsKeys(c1, e.now, e.cap0, e.cap1);
        hide UpdateScreen;
      }
    }
  }

  ghost predicate Times(events: seq<Event>) {
    forall k | 0 <= k < |events| :: events[k].Tick? ==> events[k].now >= 0
  }

  lemma {:induction false} RunSchedules(c: Charger, events: seq<Event>)
    requires Valid(c) && Scheduled(c) && Times(events)
    ensures Scheduled(AfterAll(c, events))
    decreases |events|
  {
    hide Scheduled, After, Valid;
    if events != [] {
      var before := events[..|events| - 1];
      RunSchedules(c, before);
      EventSchedules(AfterAll(c, before), events[|events| - 1]);
    }
  }

  /** At every wait the animation runs exactly when a transition is scheduled, and that transition lies in
      the future; so the wait ends by then. The charger starts running, so Scheduled. */
  lemma EveryWaitIsScheduled(c: Charger, events: seq<Event>, tick: Event)
    requires Valid(c) && ShowsAll(c.anim) && c.anim.run && Times(events) && tick.Tick? && tick.now >= 0
    ensures var c' := AfterAll(c, events + [tick]);
      !Gone(c') ==>
        && (c'.anim.run <==> c'.nextScreen != -1)
        && (c'.anim.run ==> tick.now < c'.nextScreen)
  {
    RunSchedules(c, events);
    var all := events + [tick];
    assert all[..|all| - 1] == events;
    EventSchedules(AfterAll(c, events), tick);
  }

  /** A deadline for the keys bounds the wait, whatever the screen has scheduled. */
  lemma KeyCheckBoundsWait(c: Charger, now: int)
    requires c.nextKeyCheck != -1 && now <= c.nextKeyCheck <= now + 0x7fff_ffff
    requires 0 <= now && c.nextKeyCheck < INT64_MAX
    requires c.nextScreen != -1 ==> now < c.nextScreen
    ensures 0 <= Timeout(c, now) <= c.nextKeyCheck - now
  {
  }

  // --------------------------------------------------------------------------------- the power key

  /** The power key is held since t. */
  ghost predicate Pressed(c: Charger, t: int) {
    ValidKeys(c) && c.keys[KEY_POWER].down && c.keys[KEY_POWER].timestamp == t
  }

  /** What a pass makes of a held power key: a reboot exactly when it has been held for its time; otherwise
      the earlier deadline stays if there is one, unless it is already over. */
  lemma HeldKeyOutcome(c: Charger, t: int, now: int)
    requires Pressed(c, t) && !c.rebooted
    ensures var c' := HandleInput(c, now);
      && Pressed(c', t)
      && (c'.rebooted <==> now >= t + POWER_ON_KEY_TIME)
      && (!c'.rebooted ==>
            c'.nextKeyCheck ==
              if c.nextKeyCheck == -1 || c.nextKeyCheck >= t + POWER_ON_KEY_TIME then t + POWER_ON_KEY_TIME
              else if now > c.nextKeyCheck then -1
              else c.nextKeyCheck)
  {
  }

  /** No deadline, or none before the one this press needs. */
  ghost predicate NoStaleCheck(c: Charger, t: int) {
    c.nextKeyCheck == -1 || c.nextKeyCheck >= t + POWER_ON_KEY_TIME
  }

  /** What a pass, drawn or not, leaves of the keys is what handling them left. */
  lemma PassKeepsKeys(c: Charger, now: int, online: bool, cap0: int, cap1: int)
    requires Valid(c) && !c.off
    ensures var c', h := Pass(c, now, online, cap0, cap1).0, HandleInput(c, now);
      c'.keys == h.keys && c'.nextKeyCheck == h.nextKeyCheck && c'.rebooted == h.rebooted
  {
    ReadyKeeps(c, now, online);
    PassDraws(c, now, online, cap0, cap1);
    var c1 := Ready(c, now, online);
    hide HandleInput, Ready, Pass;
    if !Gone(c1) {
      UpdateKeepsKeys(c1, now, cap0, cap1);
      hide UpdateScreen;
    }
  }

  /** The pass after a press sets the deadline of that press exactly when there was no earlier one. */
  lemma DeadlineSetIff(c: Charger, t: int, now: int, online: bool, cap0: int, cap1: int)
    requires Valid(c) && Pressed(c, t) && !Gone(c) && 0 <= t <= now < t + POWER_ON_KEY_TIME
    ensures Pass(c, now, online, cap0, cap1).0.nextKeyCheck == t + POWER_ON_KEY_TIME <==> NoStaleCheck(c, t)
  {
    HeldKeyOutcome(c, t, now);
    PassKeepsKeys(c, now, online, cap0, cap1);
    hide HandleInput, Pass;
  }

  /** Events while the power key stays down: it is not released, and time does not run backwards. */
  ghost predicate Holding(events: seq<Event>, t: int) {
    forall k | 0 <= k < |events| ::
      && (events[k].KeyEvent? && events[k].code == KEY_POWER ==> events[k].down)
      && t <= events[k].now
  }

  lemma {:induction false} HeldKeepsDeadline(c: Charger, t: int, events: seq<Event>)
    requires Valid(c) && Pressed(c, t) && NoStaleCheck(c, t) && t >= 0 && Holding(events, t)
    ensures var c' := AfterAll(c, events); Pressed(c', t) && NoStaleCheck(c', t)
    decreases |events|
  {
    if events != [] {
      var before, e := events[..|events| - 1], events[|events| - 1];
      HeldKeepsDeadline(c, t, before);
      var b := AfterAll(c, before);
      if e.Tick? && !Gone(b) {
        HeldKeyOutcome(b, t, e.now);
        PassKeepsKeys(b, e.now, e.online, e.cap0, e.cap1);
        if HandleInput(b, e.now).rebooted {
          RebootKeepsCheck(b, t, e.now);
        }
        hide HandleInput, Pass;
      }
    }
  }

  lemma RebootKeepsCheck(c: Charger, t: int, now: int)
    requires Pressed(c, t) && !c.rebooted && NoStaleCheck(c, t) && now >= t + POWER_ON_KEY_TIME
    ensures NoStaleCheck(HandleInput(c, now), t)
  {
  }

  /** A press that finds no earlier deadline is honoured: while the key is held, every pass either reboots,
      which it does exactly when the key has been held for two seconds, or waits no longer than that. */
  lemma PressIsHonoured(c: Charger, t: int, events: seq<Event>, tick: Event)
    requires Valid(c) && Pressed(c, t) && NoStaleCheck(c, t) && Scheduled(c)
    requires 0 <= t && t + POWER_ON_KEY_TIME < INT64_MAX && Holding(events, t) && Times(events)
    requires tick.Tick? && tick.now >= t
    requires !Gone(AfterAll(c, events))
    ensures var c' := AfterAll(c, events + [tick]);
      && (c'.rebooted <==> tick.now >= t + POWER_ON_KEY_TIME)
      && (!Gone(c') ==>
            && c'.nextKeyCheck == t + POWER_ON_KEY_TIME
            && 0 <= Timeout(c', tick.now) <= t + POWER_ON_KEY_TIME - tick.now)
  {
    var all := events + [tick];
    assert all[..|all| - 1] == events;
    HeldKeepsDeadline(c, t, events);
    RunSchedules(c, events);
    var b := AfterAll(c, events);
    EventSchedules(b, tick);
    HeldKeyOutcome(b, t, tick.now);
    PassKeepsKeys(b, tick.now, tick.online, tick.cap0, tick.cap1);
    hide HandleInput, Pass, Timeout;
    if !Gone(AfterAll(c, all)) {
      KeyCheckBoundsWait(AfterAll(c, all), tick.now);
    }
  }

  lemma Appended(c: Charger, events: seq<Event>, e: Event)
    requires Valid(c)
    ensures AfterAll(c, events + [e]) == After(AfterAll(c, events), e)
  {
    assert (events + [e])[..|events|] == events;
  }

  /** The charger as it is started, with the battery unreadable from then on. */
  ghost predicate Fresh(c: Charger) {
    && Valid(c) && c.anim.run && c.nextScreen == 998 && c.nextKeyCheck == -1 && !c.inited && !Gone(c)
    && forall k | 0 <= k < |c.keys| :: c.keys[k] == Key(false, false, 0)
  }

  /** The screen is off and was never on; the keys are as given. */
  ghost predicate Dark(c: Charger, power: Key, check: int) {
    && Valid(c) && !c.anim.run && c.nextScreen == -1 && !c.inited && !Gone(c)
    && c.keys[KEY_POWER] == power && !c.keys[KEY_HOME].pending && c.nextKeyCheck == check
  }

  lemma DarkPass(c: Charger, power: Key, check: int, now: int)
    requires Dark(c, power, check) && 0 <= now && now < power.timestamp + POWER_ON_KEY_TIME
    ensures
      var check1 := if power.down && (check == -1 || power.timestamp + POWER_ON_KEY_TIME < check)
                    then power.timestamp + POWER_ON_KEY_TIME else check;
      Dark(After(c, Tick(now, true, -1, -1)), power.(pending := false),
           if check1 != -1 && now > check1 then -1 else check1)
  {
  }

  lemma DarkKey(c: Charger, power: Key, check: int, down: bool, now: int)
    requires Dark(c, power, check) && power.down != down
    ensures Dark(After(c, KeyEvent(KEY_POWER, down, now)), Key(true, down, if down then now else power.timestamp),
                 check)
  {
  }

  function PressedTwice(): seq<Event> {
    [Tick(1000, true, -1, -1)]
    + [KeyEvent(KEY_POWER, true, 2000), Tick(2000, true, -1, -1)]
    + [KeyEvent(KEY_POWER, false, 2500), Tick(2500, true, -1, -1)]
    + [KeyEvent(KEY_POWER, true, 2600), Tick(2600, true, -1, -1)]
    + [Tick(4000, true, -1, -1)] + [Tick(4001, true, -1, -1)]
  }

  /** It does go wrong with an earlier deadline: with the screen off, the key is pressed at 2000 and let go,
      pressed again at 2600 and held; the pass at 4001 drops the deadline of the first press and waits
      without end, though the second press is due at 4600. */
  lemma StaleCheckHidesPress(c: Charger)
    requires Fresh(c)
    ensures var c' := AfterAll(c, PressedTwice());
      !Gone(c') && Pressed(c', 2600) && c'.nextKeyCheck == -1 && Timeout(c', 4001) == -1
  {
    var events := [Tick(1000, true, -1, -1)];
    Appended(c, [], events[0]);
    assert [] + events == events;
    assert Dark(AfterAll(c, events), Key(false, false, 0), -1);
    hide After, AfterAll, Dark, Valid;
    events := Continue(c, events, Key(false, false, 0), -1, true, 2000);
    events := Continue(c, events, Key(false, true, 2000), 4000, false, 2500);
    events := Continue(c, events, Key(false, false, 2000), 4000, true, 2600);
    var check := 4000;
    DarkPass(AfterAll(c, events), Key(false, true, 2600), check, 4000);
    Appended(c, events, Tick(4000, true, -1, -1));
    events := events + [Tick(4000, true, -1, -1)];
    DarkPass(AfterAll(c, events), Key(false, true, 2600), check, 4001);
    Appended(c, events, Tick(4001, true, -1, -1));
    events := events + [Tick(4001, true, -1, -1)];
    DarkWaits(AfterAll(c, events), 2600, 4001);
  }

  lemma DarkWaits(c: Charger, t: int, now: int)
    requires Dark(c, Key(false, true, t), -1)
    ensures !Gone(c) && Pressed(c, t) && Timeout(c, now) == -1
  {
  }

  /** A key change and the pass right after it. */
  lemma Continue(c: Charger, events: seq<Event>, power: Key, check: int, down: bool, now: int)
    returns (longer: seq<Event>)
    requires Valid(c) && Dark(AfterAll(c, events), power, check) && power.down != down && 0 <= now
    requires now < power.timestamp + POWER_ON_KEY_TIME || down
    requires check == -1 || now <= check <= now + POWER_ON_KEY_TIME
    ensures longer == events + [KeyEvent(KEY_POWER, down, now), Tick(now, true, -1, -1)]
    ensures Dark(AfterAll(c, longer), Key(false, down, if down then now else power.timestamp),
                 if down && check == -1 then now + POWER_ON_KEY_TIME else check)
  {
    hide After, AfterAll, Dark, Valid;
    var mid := events + [KeyEvent(KEY_POWER, down, now)];
    Appended(c, events, KeyEvent(KEY_POWER, down, now));
    DarkKey(AfterAll(c, events), power, check, down, now);
    longer := mid + [Tick(now, true, -1, -1)];
    Appended(c, mid, Tick(now, true, -1, -1));
    DarkPass(AfterAll(c, mid), Key(true, down, if down then now else power.timestamp), check, now);
    assert longer == events + [KeyEvent(KEY_POWER, down, now), Tick(now, true, -1, -1)];
  }
}
