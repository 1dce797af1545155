/** How runs of the updater script end: the exit code in every case, what an agreed install leaves behind, and
    that an install goes through when nothing fails. */
module UpdaterOutcomes {
  import opened Options
  import opened Updater

  /** The script comes to a question: the device is to be repartitioned. */
  predicate Asks(d: Device, f: Faults) {
    || d.layout.bml
    || !d.layout.mtdFits
    || (d.layout.mtdblock0 && d.layout.pool.Differs? && !(d.layout.gsm && f.radioMount))
  }

  /** Whether the places the install needs can be mounted on a device that is still to be repartitioned. */
  predicate MountsFail(d: Device, f: Faults) {
    f.sdMount || (d.layout.gsm && f.efsMount)
  }

  predicate ToRepartition(d: Device) {
    d.layout.bml || !d.layout.mtdFits
  }

  /** The exit code, case by case; every other run ends with 0. */
  lemma ExitCodes(d: Device, f: Faults)
    ensures var exit := Script(d, f).1;
      && (exit == 9 <==> Asks(d, f) && !d.accept)
      && (exit == 3 <==> d.layout.bml && d.accept && !MountsFail(d, f) && f.flash)
      && (exit == 5 <==> Current(d) && d.layout.gsm && f.radioMount)
      && (exit == 6 <==> Current(d) && d.cfg && RestoreFails(d, f))
      && (exit == 1 <==> || (ToRepartition(d) && d.accept && MountsFail(d, f))
                         || (Current(d) && f.sdMount && !(d.layout.gsm && f.radioMount)
                             && (d.layout.pool.Differs? ==> d.accept)))
      && exit in {0, 1, 3, 5, 6, 9}
  {
  }

  /** A run that asks does nothing else but ask, and is answered by the next run of the same boot. */
  lemma QuestionIsAll(d: Device, f: Faults)
    requires Asks(d, f) && !d.accept
    ensures Script(d, f) == (d.(accept := true, log := d.log + [Warned]), 9)
  {
  }

  /** What agreeing leaves behind on a device to be repartitioned: the install is remembered on the sdcard exactly
      if that can be mounted, and for stock the efs as well, and the device reboots exactly if the run ends well.
      The question is answered in any case, and nothing is wiped. */
  lemma AgreedInstallIsRemembered(d: Device, f: Faults)
    requires ToRepartition(d) && d.accept
    ensures var (d', exit) := Script(d, f);
      && !d'.accept && d'.layout == d.layout
      && (d'.cfg <==> d.cfg || !(f.sdMount || (d.layout.bml && d.layout.gsm && f.efsMount)))
      && d'.log == d.log + [Passed] + (if exit == 0 then [Rebooted] else [])
      && (exit == 0 <==> !MountsFail(d, f) && !(d.layout.bml && f.flash))
  {
  }

  /** On the new layout: agreeing to other volumes wipes at once; a remembered install wipes and is done with. */
  lemma CurrentRunOutcome(d: Device, f: Faults)
    requires Current(d) && Script(d, f).1 == 0
    ensures var d' := Script(d, f).0;
      && d'.log == d.log + (if d.layout.pool.Differs? then [Passed, Formatted] else [])
                         + (if d.cfg then [Formatted] else [])
      && !d'.cfg && (d'.accept <==> d.accept && !d.layout.pool.Differs?)
      && d'.layout == d.layout.(pool := if d.cfg || d.layout.pool.Differs? then Fits else d.layout.pool)
  {
    assert d.log + [Passed] + [Formatted] == d.log + [Passed, Formatted];
  }

  /** What a run that fails on the new layout leaves: nothing at all is done if the radio cannot be mounted; without
      the sdcard a pending install stays pending; a restore that fails has spent the marker. What the user agreed
      to about the volumes has been done in any case. */
  lemma FailedRunOutcome(d: Device, f: Faults)
    requires Current(d) && Script(d, f).1 in {1, 5, 6}
    ensures var (d', exit) := Script(d, f);
      && (exit == 5 ==> d' == d)
      && (exit != 5 ==>
            && d'.log == d.log + (if d.layout.pool.Differs? then [Passed, Formatted] else [])
            && (d.layout.pool.Differs? ==> d.accept && !d'.accept)
            && (d'.cfg <==> d.cfg && exit == 1))
  {
    assert d.log + [Passed] + [Formatted] == d.log + [Passed, Formatted];
  }

  const FINE := Faults(false, false, false, false, false)

  lemma TwoEvents(d: Device, events: seq<Event>, e: Event)
    ensures AfterAll(d, events + [e]) == After(AfterAll(d, events), e)
  {
    assert (events + [e])[..|events|] == events;
  }

  /** The course of an install: asked and agreed, rebooted into the new layout, and there run again, twice if its
      volumes have to be agreed to as well. */
  function Course(layout: Layout): seq<Event> {
    [Run(FINE)] + [Run(FINE)] + [Reboot(layout)] + [Run(FINE)]
    + if layout.pool.Differs? then [Run(FINE)] else []
  }

  /** It goes through when nothing fails: every question is answered once, the device is wiped for every consent, and
      nothing is left pending. */
  lemma InstallGoesThrough(d: Device, layout: Layout)
    requires Untouched(d) && ToRepartition(d)
    requires !layout.bml && layout.mtdFits && layout.mtdblock0
    ensures var e := AfterAll(d, Course(layout));
      && e == Device(layout.(pool := Fits), false, false, e.log)
      && e.log == [Warned, Passed, Rebooted, Rebooted]
                  + (if layout.pool.Differs? then [Warned, Passed, Formatted] else []) + [Formatted]
  {
    hide AfterAll, After;
    var events: seq<Event> := [Run(FINE)];
    assert AfterAll(d, []) == d by { NoEvents(d); }
    assert [] + events == events;
    TwoEvents(d, [], Run(FINE));
    Asked(d);
    var asked := d.(accept := true, log := d.log + [Warned]);
    TwoEvents(d, events, Run(FINE));
    events := events + [Run(FINE)];
    Agreed(asked);
    var agreed := Device(d.layout, false, true, [Warned, Passed, Rebooted]);
    assert AfterAll(d, events) == agreed;
    TwoEvents(d, events, Reboot(layout));
    events := events + [Reboot(layout)];
    Comes(agreed, layout);
    var back := Device(layout, false, true, [Warned, Passed, Rebooted, Rebooted]);
    assert AfterAll(d, events) == back;
    TwoEvents(d, events, Run(FINE));
    events := events + [Run(FINE)];
    if layout.pool.Differs? {
      Asked(back);
      var again := back.(accept := true, log := back.log + [Warned]);
      assert AfterAll(d, events) == again;
      TwoEvents(d, events, Run(FINE));
      Installs(again);
      assert events + [Run(FINE)] == Course(layout);
    } else {
      Installs(back);
      assert events == Course(layout);
    }
  }

  lemma NoEvents(d: Device)
    ensures AfterAll(d, []) == d
  {
  }

  lemma Asked(d: Device)
    requires Asks(d, FINE) && !d.accept
    ensures After(d, Run(FINE)) == d.(accept := true, log := d.log + [Warned])
  {
  }

  lemma Agreed(d: Device)
    requires ToRepartition(d) && d.accept
    ensures After(d, Run(FINE)) == Device(d.layout, false, true, d.log + [Passed, Rebooted])
  {
    assert d.log + [Passed] + [Rebooted] == d.log + [Passed, Rebooted];
  }

  lemma Comes(d: Device, layout: Layout)
    ensures After(d, Reboot(layout)) == Device(layout, false, d.cfg, d.log + [Rebooted])
  {
  }

  lemma Installs(d: Device)
    requires Current(d) && d.cfg && (d.accept <==> d.layout.pool.Differs?)
    ensures After(d, Run(FINE)) ==
      Device(d.layout.(pool := Fits), false, false,
             d.log + (if d.accept then [Passed, Formatted] else []) + [Formatted])
  {
    assert d.log + [Passed] + [Formatted] == d.log + [Passed, Formatted];
  }
}
