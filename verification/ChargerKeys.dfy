/** What keys and supplies come to over whole runs of the charger: what is remembered of every key, what a key
    does to the screen, when the charger powers off, and how long it waits. */
module ChargerKeys {
  import opened ChargerScreen
  import opened ChargerRuns

  // ------------------------------------------------------------------------ what is remembered

  /** The key is down exactly if the last event that concerned it was a press. */
  ghost function LastState(down: bool, code: nat, events: seq<Event>): bool {
    if events == [] then down
    else
      var e := events[|events| - 1];
      if e.KeyEvent? && e.code == code then e.down else LastState(down, code, events[..|events| - 1])
  }

  /** The time of its last press that was not a repetition. */
  ghost function LastPress(down: bool, at: int, code: nat, events: seq<Event>): int {
    if events == [] then at
    else
      var before, e := events[..|events| - 1], events[|events| - 1];
      if e.KeyEvent? && e.code == code && e.down && !LastState(down, code, before) then e.now
      else LastPress(down, at, code, before)
  }

  ghost predicate SameKeyTimes(c: Charger, c': Charger) {
    && |c'.keys| == |c.keys|
    && forall k: nat | k < |c.keys| :: c'.keys[k].down == c.keys[k].down && c'.keys[k].timestamp == c.keys[k].timestamp
  }

  lemma PassKeepsKeyTimes(c: Charger, now: int, online: bool, cap0: int, cap1: int)
    requires Valid(c)
    ensures SameKeyTimes(c, Pass(c, now, online, cap0, cap1).0)
  {
    hide UpdateScreen;
    InputKeeps(c, now);
    var r := CheckStatus(HandleInput(c, now), now, online);
    assert Valid(r);
    UpdateKeepsKeys(r, now, cap0, cap1);
    HandledKeys(c, now);
  }

  lemma HandledKey(c: Charger, code: nat, now: int)
    requires ValidKeys(c) && code <= KEY_MAX
    ensures ProcessKey(c, code, now).keys == c.keys[code := c.keys[code].(pending := false)]
  {
  }

  /** The two keys that are looked at are no longer pending; nothing else about any key changes. */
  lemma HandledKeys(c: Charger, now: int)
    requires Valid(c)
    ensures var c' := HandleInput(c, now);
            && ValidKeys(c')
            && (forall code: nat | code <= KEY_MAX && code != KEY_POWER && code != KEY_HOME ::
                  c'.keys[code] == c.keys[code])
            && c'.keys[KEY_POWER] == c.keys[KEY_POWER].(pending := false)
            && SameKeyTimes(c, c')
            && (!c'.rebooted ==> c'.keys[KEY_HOME] == c.keys[KEY_HOME].(pending := false))
  {
    hide ProcessKey;
    HandledKey(c, KEY_POWER, now);
    HandledKey(ProcessKey(c, KEY_POWER, now), KEY_HOME, now);
  }

  /** Over any events, every key's state and time are those of its last change. */
  lemma {:induction false} KeysRememberLastChange(c: Charger, events: seq<Event>, code: nat)
    requires Valid(c) && code <= KEY_MAX
    ensures var k, k' := c.keys[code], AfterAll(c, events).keys[code];
            && k'.down == LastState(k.down, code, events)
            && k'.timestamp == LastPress(k.down, k.timestamp, code, events)
    decreases |events|
  {
    if events != [] {
      var before, e := events[..|events| - 1], events[|events| - 1];
      KeysRememberLastChange(c, before, code);
      var b := AfterAll(c, before);
      if e.Tick? {
        PassKeepsKeyTimes(b, e.now, e.online, e.cap0, e.cap1);
      }
      hide Pass;
    }
  }

  /** A press after a release is what HeldKeyOutcome and PressIsHonoured are about. */
  lemma PressIsRecorded(c: Charger, events: seq<Event>, t: int)
    requires Valid(c) && !AfterAll(c, events).keys[KEY_POWER].down
    ensures var all := events + [KeyEvent(KEY_POWER, true, t)];
            Pressed(AfterAll(c, all), t) && AfterAll(c, all).keys[KEY_POWER].pending
  {
    Appended(c, events, KeyEvent(KEY_POWER, true, t));
  }

  // --------------------------------------------------------------------------- keys and the screen

  /** A key wants the animation: the power key was let go, or the home key changed. */
  predicate WantsScreen(c: Charger)
    requires ValidKeys(c)
  {
    (c.keys[KEY_POWER].pending && !c.keys[KEY_POWER].down) || c.keys[KEY_HOME].pending
  }

  /** Handling the keys reboots exactly if the power key has been held for its time, and otherwise starts the
      animation exactly if a key wants it. */
  lemma KeysKick(c: Charger, now: int)
    requires Valid(c) && !c.rebooted
    ensures var c' := HandleInput(c, now);
            && (c'.rebooted <==>
                  c.keys[KEY_POWER].down && now >= c.keys[KEY_POWER].timestamp + POWER_ON_KEY_TIME)
            && (!c'.rebooted ==> (c'.anim.run <==> c.anim.run || WantsScreen(c)))
            && c'.anim == c.anim.(run := c'.anim.run)
  {
  }

  /** The animation is over, or was never begun. */
  predicate Blanked(c: Charger) {
    !c.anim.run && c.nextScreen == -1 && c.anim.curCycle == 0 && c.anim.curFrame == 0
  }

  /** A charger with a blank screen shows the battery again, from the opening frame, in exactly those passes in
      which a key wants it; in the others nothing is drawn. */
  lemma KeyShowsBattery(c: Charger, now: int, online: bool, cap0: int, cap1: int)
    requires Valid(c) && Blanked(c) && !Gone(c) && now >= 0 && c.anim.numCycles > 0 && (c.inited || cap0 >= 0)
    requires !Gone(Pass(c, now, online, cap0, cap1).0)
    ensures var d := Pass(c, now, online, cap0, cap1).1;
            if !WantsScreen(c) then d == Nothing
            else if cap1 >= 0 && c.anim.numFrames > 0 then d.Level? && d.opening
            else d == Unknown
  {
    KeysKick(c, now);
    InputKeeps(c, now);
    ReadyKeeps(c, now, online);
    PassDraws(c, now, online, cap0, cap1);
    hide HandleInput, Pass, Advance;
    UpdateKeepsKeys(Ready(c, now, online), now, cap0, cap1);
  }

  // -------------------------------------------------------------------------------- the supplies

  /** A pass that does not reboot powers off exactly if a look at the supplies is due and finds none; a look that
      finds one puts off the next for a second. */
  lemma SupplyOutcome(c: Charger, now: int, online: bool, cap0: int, cap1: int)
    requires Valid(c) && !Gone(c)
    ensures var c' := Pass(c, now, online, cap0, cap1).0;
            !c'.rebooted ==>
              && (c'.off <==> now >= c.nextSupplyCheck && !online)
              && c'.nextSupplyCheck == (if now >= c.nextSupplyCheck && online then now + UNPLUGGED_SHUTDOWN_TIME
                                        else c.nextSupplyCheck)
  {
    InputKeeps(c, now);
    ReadyKeeps(c, now, online);
    PassDraws(c, now, online, cap0, cap1);
    hide HandleInput, Pass;
    if !Gone(Ready(c, now, online)) {
      UpdateKeepsKeys(Ready(c, now, online), now, cap0, cap1);
      hide UpdateScreen;
    }
  }

  /** Passes come in the order of time, none before `from`. */
  ghost predicate InOrder(events: seq<Event>, from: int) {
    forall j, k | 0 <= j <= k < |events| ::
      events[j].Tick? && events[k].Tick? ==> from <= events[j].now <= events[k].now
  }

  /** The time of the last pass, or `from`. */
  ghost function LastTick(events: seq<Event>, from: int): int {
    if events == [] then from
    else if events[|events| - 1].Tick? then events[|events| - 1].now
    else LastTick(events[..|events| - 1], from)
  }

  lemma {:induction false} SupplyCheckIsNear(c: Charger, events: seq<Event>, from: int)
    requires Valid(c) && c.nextSupplyCheck <= from + UNPLUGGED_SHUTDOWN_TIME && InOrder(events, from)
    ensures var c' := AfterAll(c, events);
            !Gone(c') ==> !Gone(c) && c'.nextSupplyCheck <= LastTick(events, from) + UNPLUGGED_SHUTDOWN_TIME
    decreases |events|
  {
    if events != [] {
      var before, e := events[..|events| - 1], events[|events| - 1];
      assert InOrder(before, from);
      SupplyCheckIsNear(c, before, from);
      var b := AfterAll(c, before);
      if e.Tick? && !Gone(b) {
        EarlierTick(events, from);
        SupplyOutcome(b, e.now, e.online, e.cap0, e.cap1);
      }
      hide Pass;
    }
  }

  lemma EarlierTick(events: seq<Event>, from: int)
    requires InOrder(events, from) && events != [] && events[|events| - 1].Tick?
    ensures LastTick(events[..|events| - 1], from) <= events[|events| - 1].now
  {
    var before, last := events[..|events| - 1], events[|events| - 1];
    assert from <= last.now;
    LastTickBounded(before, from, last.now);
  }

  lemma {:induction false} LastTickBounded(events: seq<Event>, from: int, now: int)
    requires from <= now && forall k | 0 <= k < |events| :: events[k].Tick? ==> events[k].now <= now
    ensures LastTick(events, from) <= now
  {
    if events != [] && !events[|events| - 1].Tick? {
      LastTickBounded(events[..|events| - 1], from, now);
    }
  }

  /** An unplugged charger goes off within a second of passes: a pass at least that long after an earlier one, or
      after the start, that finds no supply powers off, unless the power key makes it reboot. A charger never
      goes off in a pass that finds a supply. */
  lemma UnpluggedPowersOff(c: Charger, events: seq<Event>, from: int, tick: Event)
    requires Valid(c) && c.nextSupplyCheck <= from + UNPLUGGED_SHUTDOWN_TIME && InOrder(events, from)
    requires tick.Tick? && !Gone(AfterAll(c, events))
    ensures var c' := AfterAll(c, events + [tick]);
            && (!tick.online && tick.now >= LastTick(events, from) + UNPLUGGED_SHUTDOWN_TIME ==> Gone(c'))
            && (tick.online ==> !c'.off)
            && (c'.rebooted ==> var k := AfterAll(c, events).keys[KEY_POWER];
                                k.down && tick.now >= k.timestamp + POWER_ON_KEY_TIME)
  {
    SupplyCheckIsNear(c, events, from);
    Appended(c, events, tick);
    var b := AfterAll(c, events);
    SupplyOutcome(b, tick.now, tick.online, tick.cap0, tick.cap1);
    KeysKick(b, tick.now);
    PassKeepsKeys(b, tick.now, tick.online, tick.cap0, tick.cap1);
    RebootedPassStays(b, tick);
    hide Pass, HandleInput;
  }

  lemma RebootedPassStays(b: Charger, tick: Event)
    requires Valid(b) && !Gone(b) && tick.Tick?
    ensures var c' := Pass(b, tick.now, tick.online, tick.cap0, tick.cap1).0; c'.rebooted ==> !c'.off
  {
    InputKeeps(b, tick.now);
    ReadyKeeps(b, tick.now, tick.online);
    hide HandleInput;
    var r := Ready(b, tick.now, tick.online);
    UpdateKeepsKeys(r, tick.now, tick.cap0, tick.cap1);
    hide UpdateScreen;
  }

  // ------------------------------------------------------------------------------------- the wait

  /** The earlier of the two times that are set, screen and keys. */
  function NextEvent(c: Charger): int {
    if c.nextScreen == -1 then c.nextKeyCheck
    else if c.nextKeyCheck != -1 && c.nextKeyCheck < c.nextScreen then c.nextKeyCheck
    else c.nextScreen
  }

  /** The conversion to int keeps the low 32 bits. */
  lemma ToIntWraps(x: int)
    ensures -0x8000_0000 <= ToInt(x) < 0x8000_0000 && (x - ToInt(x)) % 0x1_0000_0000 == 0
    ensures -0x8000_0000 <= x < 0x8000_0000 ==> ToInt(x) == x
  {
  }

  /** The wait is without end if neither screen nor keys have a time; otherwise it is the time to the earlier of the
      two, none if that has passed, as far as an int holds it. */
  lemma WaitEndsAtNextEvent(c: Charger, now: int)
    requires c.nextScreen < INT64_MAX && c.nextKeyCheck < INT64_MAX
    ensures c.nextScreen == -1 && c.nextKeyCheck == -1 ==> Timeout(c, now) == -1
    ensures c.nextScreen != -1 || c.nextKeyCheck != -1 ==>
              var left := if NextEvent(c) > now then NextEvent(c) - now else 0;
              && (left < 0x8000_0000 ==> Timeout(c, now) == left)
              && -0x8000_0000 <= Timeout(c, now) < 0x8000_0000
              && (left - Timeout(c, now)) % 0x1_0000_0000 == 0
  {
    ToIntWraps(if NextEvent(c) > now then NextEvent(c) - now else 0);
    hide ToInt;
  }

  // ------------------------------------------------------------------------------ the blank screen

  /** When the animation is over the screen goes blank, and with a battery that cannot be read it never goes on:
      either way there is nothing to wait for until a key wants the screen. */
  lemma ScreenGoesBlank(c: Charger, now: int, cap0: int, cap1: int)
    requires ValidAnim(c.anim) && Due(c, now)
    ensures var (c', d) := UpdateScreen(c, now, cap0, cap1);
            && (!c.inited && cap0 < 0 ==> d == Nothing && !c'.anim.run && c'.nextScreen == -1 && !c'.inited)
            && (c.inited || cap0 >= 0 ==>
                  && c'.inited && d != Nothing
                  && (d == Blank <==> c.anim.curCycle == c.anim.numCycles)
                  && (d == Blank ==> Blanked(c'))
                  && (d == Unknown ==> c'.anim.run && c'.nextScreen == now + BATTERY_UNKNOWN_TIME))
  {
    hide Advance;
  }
}
