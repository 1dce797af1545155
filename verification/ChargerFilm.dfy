/** The charger's animation as a film: the pictures that due calls put on the screen, in order. */
module ChargerFilm {
  import opened ChargerScreen
  import opened ChargerRuns

  // ------------------------------------------------------------------------- from frame to frame

  /** A frame of the animation proper: there, and not kept for its level only. */
  predicate Moving(a: Anim, k: int)
    requires a.numFrames <= |a.frames|
  {
    0 <= k < a.numFrames && !a.frames[k].levelOnly
  }

  /** After a frame comes the next moving one, in the same cycle; after the last one a new cycle begins. */
  lemma NextFrame(c: Charger, now: int, cap0: int, cap1: int)
    requires ValidAnim(c.anim) && UpdateScreen(c, now, cap0, cap1).1.Level?
    ensures var (c', d) := UpdateScreen(c, now, cap0, cap1);
            && c'.anim.frames == c.anim.frames && c'.anim.numFrames == c.anim.numFrames
            && c'.anim.numCycles == c.anim.numCycles && c'.anim.run && c'.inited
            && d.frame < c.anim.numFrames
            && (c.anim.curFrame != 0 ==> d == Level(c.anim.curFrame, false))
            && if c'.anim.curFrame == 0 then
                 && c'.anim.curCycle == c.anim.curCycle + 1
                 && forall k | d.frame < k < c.anim.numFrames :: !Moving(c.anim, k)
               else
                 && c'.anim.curCycle == c.anim.curCycle && c'.anim.capacity >= 0
                 && d.frame < c'.anim.curFrame && Moving(c.anim, c'.anim.curFrame)
                 && forall k | d.frame < k < c'.anim.curFrame :: !Moving(c.anim, k)
  {
  }

  // ------------------------------------------------------------------------------- what is expected

  /** The highest level that is not above the capacity; the first stands for everything below. */
  function LevelOf(frames: seq<Frame>, num: nat, cap: int): nat
    requires num <= |frames|
  {
    if num <= 1 then 0 else if frames[num - 1].minCapacity <= cap then num - 1 else LevelOf(frames, num - 1, cap)
  }

  /** The moving frames from i on, in order. */
  function MovingFrom(a: Anim, i: nat): seq<nat>
    requires a.numFrames <= |a.frames|
    decreases if i < a.numFrames then a.numFrames - i else 0
  {
    if i >= a.numFrames then []
    else if a.frames[i].levelOnly then MovingFrom(a, i + 1)
    else [i] + MovingFrom(a, i + 1)
  }

  function Pictures(frames: seq<nat>): seq<Drawn> {
    seq(|frames|, k requires 0 <= k < |frames| => Level(frames[k], false))
  }

  /** One cycle, when the battery reads `cap` as it begins. */
  function Cycle(a: Anim, cap: int): (r: seq<Drawn>)
    requires a.numFrames <= |a.frames|
    ensures |r| > 0
  {
    if cap < 0 || a.numFrames == 0 then [Unknown]
    else
      var first := LevelOf(a.frames, a.numFrames, cap);
      [Level(first, true)] + Pictures(MovingFrom(a, first + 1))
  }

  /** A due call: its time, and what the battery reads. */
  datatype Look = Look(now: int, cap0: int, cap1: int)

  /** The film of that many cycles, and the blank screen at its end, as far as there are calls for it. */
  function Expected(a: Anim, cycles: nat, looks: seq<Look>): seq<Drawn>
    requires a.numFrames <= |a.frames|
    decreases |looks|
  {
    if looks == [] then []
    else if cycles == 0 then [Blank]
    else
      var cycle := Cycle(a, looks[0].cap1);
      if |looks| <= |cycle| then cycle[..|looks|]
      else cycle + Expected(a, cycles - 1, looks[|cycle|..])
  }

  lemma {:induction false} LevelIsFirst(a: Anim, cap: int, num: nat)
    requires num <= a.numFrames <= |a.frames| && 0 < num && Ascending(a)
    requires forall k | num <= k < a.numFrames :: cap < a.frames[k].minCapacity
    ensures LevelOf(a.frames, num, cap) == FirstAbove(a.frames, a.numFrames, cap, 1) - 1
  {
    hide FirstAbove;
    var r := FirstAbove(a.frames, a.numFrames, cap, 1);
    FirstAboveSplits(a, cap, 1);
    assert num < a.numFrames ==> (a.frames[num].minCapacity <= cap <==> num < r);
    if num > 1 {
      assert a.frames[num - 1].minCapacity <= cap <==> num - 1 < r;
      if !(a.frames[num - 1].minCapacity <= cap) {
        LevelIsFirst(a, cap, num - 1);
      }
    }
  }

  /** Frames that do not move add nothing. */
  lemma {:induction false} MovingSkips(a: Anim, i: nat, j: nat)
    requires a.numFrames <= |a.frames| && i <= j <= a.numFrames
    requires forall k | i <= k < j :: !Moving(a, k)
    ensures MovingFrom(a, i) == MovingFrom(a, j)
    decreases j - i
  {
    if i < j {
      assert !Moving(a, i);
      MovingSkips(a, i + 1, j);
    }
  }

  // --------------------------------------------------------------------------------- what is shown

  function Shown(c: Charger, l: Look): (Charger, Drawn)
    requires ValidAnim(c.anim)
  {
    UpdateScreen(c, l.now, l.cap0, l.cap1)
  }

  lemma ShownKeeps(c: Charger, l: Look)
    requires ValidAnim(c.anim)
    ensures ValidAnim(Shown(c, l).0.anim)
  {
    if Due(c, l.now) {
      DueCallGoesOn(c, l.now, l.cap0, l.cap1);
    }
  }

  /** What calls one after the other show; each of them comes when it is due. */
  ghost function Film(c: Charger, looks: seq<Look>): seq<Drawn>
    requires ValidAnim(c.anim)
    decreases |looks|
  {
    if looks == [] then []
    else
      ShownKeeps(c, looks[0]);
      [Shown(c, looks[0]).1] + Film(Shown(c, looks[0]).0, looks[1..])
  }

  ghost predicate AllDue(c: Charger, looks: seq<Look>)
    requires ValidAnim(c.anim)
    decreases |looks|
  {
    looks == [] ||
    (ShownKeeps(c, looks[0]);
     Due(c, looks[0].now) && AllDue(Shown(c, looks[0]).0, looks[1..]))
  }

  /** The animation is on, with the screen initialized, in a table that ascends. */
  ghost predicate On(c: Charger) {
    ValidAnim(c.anim) && Ascending(c.anim) && c.inited
  }

  ghost predicate SameTable(a: Anim, b: Anim) {
    a.frames == b.frames && a.numFrames == b.numFrames && a.numCycles == b.numCycles
  }

  lemma {:induction false} MovingByTable(a: Anim, b: Anim, i: nat)
    requires a.numFrames <= |a.frames| && SameTable(a, b)
    ensures MovingFrom(a, i) == MovingFrom(b, i)
    decreases if i < a.numFrames then a.numFrames - i else 0
  {
    if i < a.numFrames {
      MovingByTable(a, b, i + 1);
    }
  }

  lemma CycleByTable(a: Anim, b: Anim, cap: int)
    requires a.numFrames <= |a.frames| && SameTable(a, b)
    ensures Cycle(a, cap) == Cycle(b, cap)
  {
    if cap >= 0 && a.numFrames != 0 {
      MovingByTable(a, b, LevelOf(a.frames, a.numFrames, cap) + 1);
    }
  }

  lemma {:induction false} ExpectedByTable(a: Anim, b: Anim, cycles: nat, looks: seq<Look>)
    requires a.numFrames <= |a.frames| && SameTable(a, b)
    ensures Expected(a, cycles, looks) == Expected(b, cycles, looks)
    decreases |looks|
  {
    hide Cycle;
    if looks != [] && cycles > 0 {
      CycleByTable(a, b, looks[0].cap1);
      if |looks| > |Cycle(a, looks[0].cap1)| {
        ExpectedByTable(a, b, cycles - 1, looks[|Cycle(a, looks[0].cap1)|..]);
      }
    }
  }

  /** The pictures given, and then the film of the cycles given, as far as there are calls. */
  function Then(pictures: seq<Drawn>, a: Anim, cycles: nat, looks: seq<Look>): seq<Drawn>
    requires a.numFrames <= |a.frames|
  {
    if |looks| <= |pictures| then pictures[..|looks|] else pictures + Expected(a, cycles, looks[|pictures|..])
  }

  lemma ThenCons(d: Drawn, pictures: seq<Drawn>, a: Anim, cycles: nat, looks: seq<Look>)
    requires a.numFrames <= |a.frames| && looks != []
    ensures Then([d] + pictures, a, cycles, looks) == [d] + Then(pictures, a, cycles, looks[1..])
  {
    hide Expected;
    if |looks| > 1 + |pictures| {
      assert looks[1 + |pictures|..] == looks[1..][|pictures|..];
    }
  }

  lemma ThenNothing(a: Anim, cycles: nat, looks: seq<Look>)
    requires a.numFrames <= |a.frames|
    ensures Then([], a, cycles, looks) == Expected(a, cycles, looks)
    ensures looks != [] && cycles > 0 ==>
              Expected(a, cycles, looks) == Then(Cycle(a, looks[0].cap1), a, cycles - 1, looks)
  {
    hide Cycle;
    assert looks[0..] == looks;
  }

  /** What is left of the cycle that the animation is in; between cycles, nothing. */
  function Remaining(a: Anim): seq<Drawn>
    requires a.numFrames <= |a.frames|
  {
    if a.curFrame == 0 then [] else Pictures(MovingFrom(a, a.curFrame))
  }

  function CyclesAfter(a: Anim): nat
    requires ValidAnim(a)
  {
    if a.curFrame == 0 then a.numCycles - a.curCycle else a.numCycles - a.curCycle - 1
  }

  /** After a frame f the animation stands at what remains behind f. */
  lemma RemainsBehind(a: Anim, b: Anim, f: nat)
    requires ValidAnim(b) && SameTable(a, b) && f < a.numFrames <= |a.frames|
    requires if b.curFrame == 0 then forall k | f < k < a.numFrames :: !Moving(a, k)
             else f < b.curFrame && forall k | f < k < b.curFrame :: !Moving(a, k)
    ensures Remaining(b) == Pictures(MovingFrom(a, f + 1))
  {
    if b.curFrame == 0 {
      MovingSkips(a, f + 1, a.numFrames);
    } else {
      MovingSkips(a, f + 1, b.curFrame);
      MovingByTable(a, b, b.curFrame);
    }
  }

  lemma DrawsInCycle(c: Charger, l: Look)
    requires On(c) && Due(c, l.now) && c.anim.curFrame > 0
    ensures Shown(c, l).1 == Level(c.anim.curFrame, false)
  {
  }

  lemma DrawsOpening(c: Charger, l: Look)
    requires On(c) && Due(c, l.now) && c.anim.curFrame == 0 && c.anim.curCycle < c.anim.numCycles
    requires l.cap1 >= 0 && c.anim.numFrames > 0
    ensures Shown(c, l).1 == Level(LevelOf(c.anim.frames, c.anim.numFrames, l.cap1), true)
  {
    hide LevelOf;
    LevelIsFirst(c.anim, l.cap1, c.anim.numFrames);
  }

  lemma DrawsUnknown(c: Charger, l: Look)
    requires On(c) && Due(c, l.now) && c.anim.curFrame == 0 && c.anim.curCycle < c.anim.numCycles
    requires l.cap1 < 0 || c.anim.numFrames == 0
    ensures var (c', d) := Shown(c, l);
            && d == Unknown && SameTable(c.anim, c'.anim) && c'.anim.run && c'.inited
            && c'.anim.curFrame == 0 && c'.anim.curCycle == c.anim.curCycle + 1
  {
  }

  lemma DrawsBlank(c: Charger, l: Look)
    requires On(c) && Due(c, l.now) && c.anim.curCycle == c.anim.numCycles
    ensures var (c', d) := Shown(c, l); d == Blank && !c'.anim.run && ValidAnim(c'.anim)
  {
  }

  /** One call puts up the first picture of what is expected, and leaves the rest of it expected. */
  lemma OneLook(c: Charger, looks: seq<Look>)
    requires On(c) && looks != [] && Due(c, looks[0].now) && c.anim.curCycle < c.anim.numCycles
    ensures var (c', d) := Shown(c, looks[0]);
            && On(c') && SameTable(c.anim, c'.anim)
            && Then(Remaining(c.anim), c.anim, CyclesAfter(c.anim), looks)
               == [d] + Then(Remaining(c'.anim), c.anim, CyclesAfter(c'.anim), looks[1..])
  {
    hide UpdateScreen, Expected, LevelOf, Then, MovingFrom;
    var a, l, n := c.anim, looks[0], CyclesAfter(c.anim);
    var (c', d) := Shown(c, l);
    ShownKeeps(c, l);
    if a.curFrame > 0 {
      DrawsInCycle(c, l);
      NextFrame(c, l.now, l.cap0, l.cap1);
      RemainsBehind(a, c'.anim, d.frame);
      InCycle(a);
      ThenCons(d, Remaining(c'.anim), a, n, looks);
    } else {
      ThenNothing(a, n, looks);
      if l.cap1 >= 0 && a.numFrames > 0 {
        DrawsOpening(c, l);
        NextFrame(c, l.now, l.cap0, l.cap1);
        RemainsBehind(a, c'.anim, d.frame);
        ThenCons(d, Remaining(c'.anim), a, n - 1, looks);
      } else {
        DrawsUnknown(c, l);
        var none: seq<Drawn> := [];
        assert Cycle(a, l.cap1) == [d] + none && Remaining(c'.anim) == none;
        ThenCons(d, none, a, n - 1, looks);
      }
    }
  }

  lemma InCycle(a: Anim)
    requires ValidAnim(a) && a.curFrame > 0
    ensures Remaining(a) == [Level(a.curFrame, false)] + Pictures(MovingFrom(a, a.curFrame + 1))
  {
  }

  /** Whatever the times and the readings of due calls: they show, cycle by cycle, the opening frame of the level
      that the battery then has and every later moving frame in order, or the picture for an unknown battery;
      and after the last cycle a blank screen. */
  lemma {:induction false} FilmIsExpected(c: Charger, looks: seq<Look>)
    requires On(c) && AllDue(c, looks)
    ensures Film(c, looks) == Then(Remaining(c.anim), c.anim, CyclesAfter(c.anim), looks)
    decreases |looks|
  {
    hide UpdateScreen, Then, Remaining, MovingFrom, Cycle, Ascending;
    if looks == [] {
      ThenEnds(c.anim);
    } else if c.anim.curCycle == c.anim.numCycles {
      DrawsBlank(c, looks[0]);
      BlankIsLast(c, looks);
    } else {
      OneLook(c, looks);
      var c' := Shown(c, looks[0]).0;
      FilmIsExpected(c', looks[1..]);
      hide Film;
      ThenByTable(c.anim, c'.anim, Remaining(c'.anim), CyclesAfter(c'.anim), looks[1..]);
    }
  }

  lemma ThenEnds(a: Anim)
    requires ValidAnim(a)
    ensures Then(Remaining(a), a, CyclesAfter(a), []) == []
  {
  }

  lemma ThenByTable(a: Anim, b: Anim, pictures: seq<Drawn>, cycles: nat, looks: seq<Look>)
    requires a.numFrames <= |a.frames| && SameTable(a, b)
    ensures Then(pictures, a, cycles, looks) == Then(pictures, b, cycles, looks)
  {
    if |looks| > |pictures| {
      ExpectedByTable(a, b, cycles, looks[|pictures|..]);
    }
  }

  /** With the animation over, only one call more can be due. */
  lemma BlankIsLast(c: Charger, looks: seq<Look>)
    requires On(c) && AllDue(c, looks) && looks != [] && c.anim.curCycle == c.anim.numCycles
    ensures |looks| == 1
    ensures Film(c, looks) == [Blank] == Then(Remaining(c.anim), c.anim, CyclesAfter(c.anim), looks)
  {
    hide UpdateScreen, Expected;
    DrawsBlank(c, looks[0]);
    var c' := Shown(c, looks[0]).0;
    ShownKeeps(c, looks[0]);
    assert looks[1..] == [];
    assert Film(c', looks[1..]) == [];
    BlankExpected(c.anim, looks);
  }

  lemma BlankExpected(a: Anim, looks: seq<Look>)
    requires ValidAnim(a) && a.curCycle == a.numCycles && |looks| == 1
    ensures Then(Remaining(a), a, CyclesAfter(a), looks) == [Blank]
  {
    assert looks[0..] == looks;
  }
  // ---------------------------------------------------------------------------------- whole runs

  /** The charger after these calls. */
  ghost function FilmEnd(c: Charger, looks: seq<Look>): (c': Charger)
    requires ValidAnim(c.anim)
    ensures ValidAnim(c'.anim)
    decreases |looks|
  {
    if looks == [] then c
    else
      ShownKeeps(c, looks[0]);
      FilmEnd(Shown(c, looks[0]).0, looks[1..])
  }

  lemma {:induction false} OneMoreLook(c: Charger, looks: seq<Look>, l: Look)
    requires ValidAnim(c.anim) && AllDue(c, looks) && Due(FilmEnd(c, looks), l.now)
    ensures AllDue(c, looks + [l])
    ensures Film(c, looks + [l]) == Film(c, looks) + [Shown(FilmEnd(c, looks), l).1]
    ensures FilmEnd(c, looks + [l]) == Shown(FilmEnd(c, looks), l).0
    decreases |looks|
  {
    hide UpdateScreen, ValidAnim;
    var all := looks + [l];
    if looks == [] {
      ShownKeeps(c, l);
      assert all == [l] && all[1..] == [];
      assert AllDue(Shown(c, l).0, all[1..]) && Film(Shown(c, l).0, all[1..]) == [];
    } else {
      ShownKeeps(c, looks[0]);
      assert all[0] == looks[0] && all[1..] == looks[1..] + [l];
      OneMoreLook(Shown(c, looks[0]).0, looks[1..], l);
    }
  }

  /** What decides about the screen is the same. */
  ghost predicate SameScreen(c: Charger, d: Charger) {
    c.anim == d.anim && c.inited == d.inited && c.nextScreen == d.nextScreen
  }

  lemma SameScreenShows(c: Charger, d: Charger, l: Look)
    requires ValidAnim(c.anim) && SameScreen(c, d)
    ensures Due(c, l.now) == Due(d, l.now)
    ensures Shown(c, l).1 == Shown(d, l).1 && SameScreen(Shown(c, l).0, Shown(d, l).0)
  {
    hide Open, Advance;
  }

  /** The pictures of a run, and the calls that put them up. */
  ghost function PictureLog(c: Charger, events: seq<Event>): seq<Drawn>
    requires Valid(c)
    decreases |events|
  {
    if events == [] then []
    else
      var before, e := events[..|events| - 1], events[|events| - 1];
      var b := AfterAll(c, before);
      PictureLog(c, before) + if DueEvent(b, e) then [Pass(b, e.now, e.online, e.cap0, e.cap1).1] else []
  }

  ghost function DueLooks(c: Charger, events: seq<Event>): seq<Look>
    requires Valid(c)
    decreases |events|
  {
    if events == [] then []
    else
      var before, e := events[..|events| - 1], events[|events| - 1];
      DueLooks(c, before) + if DueEvent(AfterAll(c, before), e) then [Look(e.now, e.cap0, e.cap1)] else []
  }

  lemma EventShows(b: Charger, e: Event)
    requires Valid(b) && b.anim.run
    ensures if DueEvent(b, e) then
              var l := Look(e.now, e.cap0, e.cap1);
              && Due(b, l.now) && SameScreen(After(b, e), Shown(b, l).0)
              && Pass(b, e.now, e.online, e.cap0, e.cap1).1 == Shown(b, l).1
            else SameScreen(After(b, e), b)
  {
    if e.Tick? && !Gone(b) {
      InputKeeps(b, e.now);
      ReadyKeeps(b, e.now, e.online);
      PassDraws(b, e.now, e.online, e.cap0, e.cap1);
      var r := Ready(b, e.now, e.online);
      assert SameScreen(r, b) && SameScreen(HandleInput(b, e.now), b);
      hide HandleInput, Ready, Pass;
      SameScreenShows(r, b, Look(e.now, e.cap0, e.cap1));
    }
  }

  /** The film so far, and the state of the run it was taken in. */
  ghost predicate Tracks(c: Charger, looks: seq<Look>, log: seq<Drawn>, b: Charger)
    requires ValidAnim(c.anim)
  {
    AllDue(c, looks) && Film(c, looks) == log && SameScreen(b, FilmEnd(c, looks))
  }

  lemma EventTracks(c: Charger, looks: seq<Look>, log: seq<Drawn>, b: Charger, e: Event)
    requires ValidAnim(c.anim) && Tracks(c, looks, log, b) && Valid(b) && b.anim.run
    ensures if DueEvent(b, e) then
              Tracks(c, looks + [Look(e.now, e.cap0, e.cap1)],
                     log + [Pass(b, e.now, e.online, e.cap0, e.cap1).1], After(b, e))
            else Tracks(c, looks, log, After(b, e))
  {
    EventShows(b, e);
    hide DueEvent, After, Pass, Shown, Film, AllDue, FilmEnd;
    if DueEvent(b, e) {
      var l := Look(e.now, e.cap0, e.cap1);
      SameScreenShows(b, FilmEnd(c, looks), l);
      OneMoreLook(c, looks, l);
    }
  }

  lemma NoEventTracks(c: Charger)
    requires ValidAnim(c.anim)
    ensures Tracks(c, [], [], c)
  {
  }

  ghost predicate RunsThroughout(c: Charger, events: seq<Event>)
    requires Valid(c)
  {
    forall k | 0 <= k < |events| :: AfterAll(c, events[..k]).anim.run
  }

  lemma RunsBefore(c: Charger, events: seq<Event>)
    requires Valid(c) && RunsThroughout(c, events) && events != []
    ensures RunsThroughout(c, events[..|events| - 1]) && AfterAll(c, events[..|events| - 1]).anim.run
  {
    hide AfterAll;
    var before := events[..|events| - 1];
    forall k | 0 <= k < |before|
      ensures AfterAll(c, before[..k]).anim.run
    {
      assert before[..k] == events[..k];
    }
  }

  lemma {:induction false} RunIsFilm(c: Charger, events: seq<Event>)
    requires Valid(c) && RunsThroughout(c, events)
    ensures Tracks(c, DueLooks(c, events), PictureLog(c, events), AfterAll(c, events))
    decreases |events|
  {
    hide Tracks, After, Pass, DueEvent, ValidAnim;
    if events == [] {
      assert Tracks(c, [], [], c) by { NoEventTracks(c); }
    } else {
      var before, e := events[..|events| - 1], events[|events| - 1];
      RunsBefore(c, events);
      RunIsFilm(c, before);
      var looks, log := DueLooks(c, before), PictureLog(c, before);
      assert looks + [] == looks && log + [] == log;
      EventTracks(c, looks, log, AfterAll(c, before), e);
    }
  }

  /** Over any events, keys and passes, while the animation runs: the pictures put up are those of the film. */
  lemma RunShowsExpected(c: Charger, events: seq<Event>)
    requires Valid(c) && On(c) && RunsThroughout(c, events)
    ensures PictureLog(c, events) == Then(Remaining(c.anim), c.anim, CyclesAfter(c.anim), DueLooks(c, events))
  {
    hide Valid, PictureLog, DueLooks, Then, Remaining, CyclesAfter, On, AfterAll, RunsThroughout;
    RunIsFilm(c, events);
    FilmIsExpected(c, DueLooks(c, events));
  }
}
