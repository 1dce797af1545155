/** The updater script: what it asks, remembers and wipes over any sequence of runs and reboots. */
module Updater {
  import opened Options

  // --------------------------------------------------------------------------------- the device

  /** /dev/lvpool: no system volume, one of the size the script wants, or another layout. */
  datatype Pool = Absent | Fits | Differs

  /** What the script finds out about the device: a bml7 partition, an mtd2 that is the new datadata, an
      mtdblock0, the volumes, and whether it runs for GSM. */
  datatype Layout = Layout(bml: bool, mtdFits: bool, mtdblock0: bool, pool: Pool, gsm: bool)

  /** What happened so far, in order. */
  datatype Mark = Warned | Passed | Formatted | Rebooted

  /** accept is /tmp/.accept_wipe, gone after a reboot; cfg is omni.cfg on the sdcard. */
  datatype Device = Device(layout: Layout, accept: bool, cfg: bool, log: seq<Mark>)

  /** Which commands fail in a run. Files are written and removed without failure. */
  datatype Faults = Faults(sdMount: bool, efsMount: bool, flash: bool, radioMount: bool, efsRestore: bool)

  function Say(d: Device, m: Mark): Device {
    d.(log := d.log + [m])
  }

  // --------------------------------------------------------------------------------- the script

  /** warn_repartition: the first time it warns and gives up, the second time it goes on. */
  function Warn(d: Device): (Device, Option<int>) {
    if !d.accept then (Say(d, Warned).(accept := true), Some(9))
    else (Say(d, Passed).(accept := false), None)
  }

  /** setup_lvm_partitions and format_partitions. */
  function Wipe(d: Device): Device {
    Say(d, Formatted).(layout := d.layout.(pool := Fits))
  }

  function Restart(d: Device): Device {
    Say(d, Rebooted).(accept := false)
  }

  function FromStock(d: Device, f: Faults): (Device, int) {
    var (w, exit) := Warn(d);
    if exit.Some? then (w, exit.value)
    else if f.sdMount || (d.layout.gsm && f.efsMount) then (w, 1)
    else if f.flash then (w.(cfg := true), 3)
    else (Restart(w.(cfg := true)), 0)
  }

  function FromOldMtd(d: Device, f: Faults): (Device, int) {
    var (w, exit) := Warn(d);
    if exit.Some? then (w, exit.value)
    else if f.sdMount then (w, 1)
    else if d.layout.gsm && f.efsMount then (w.(cfg := true), 1)
    else (Restart(w.(cfg := true)), 0)
  }

  /** The check of the volumes: a pool of another layout is wiped, once the user has agreed. */
  function Resize(d: Device): (Device, Option<int>) {
    if !d.layout.pool.Differs? then (d, None)
    else
      var (w, exit) := Warn(d);
      if exit.Some? then (w, exit) else (Wipe(w), None)
  }

  function FromCurrent(d: Device, f: Faults): (Device, int) {
    if d.layout.gsm && f.radioMount then (d, 5)
    else
      var (r, exit) := Resize(d);
      if exit.Some? then (r, exit.value)
      else if f.sdMount then (r, 1)
      else if !r.cfg then (r, 0)
      else if d.layout.gsm && f.efsRestore then (r.(cfg := false), 6)
      else (Wipe(r.(cfg := false)), 0)
  }

  /** One run of the script, and what it exits with. */
  function Script(d: Device, f: Faults): (Device, int) {
    if d.layout.bml then FromStock(d, f)
    else if !d.layout.mtdFits then FromOldMtd(d, f)
    else if d.layout.mtdblock0 then FromCurrent(d, f)
    else (d, 0)
  }

  /** What happens to a device: the script runs, it reboots and comes up in whatever layout, or the
      sdcard loses the file. */
  datatype Event = Run(faults: Faults) | Reboot(layout: Layout) | LoseCfg

  function After(d: Device, e: Event): Device {
    match e
    case Run(f) => Script(d, f).0
    case Reboot(layout) => Restart(d).(layout := layout)
    case LoseCfg => d.(cfg := false)
  }

  function AfterAll(d: Device, events: seq<Event>): Device {
    if events == [] then d else After(AfterAll(d, events[..|events| - 1]), events[|events| - 1])
  }

  predicate Untouched(d: Device) {
    !d.accept && !d.cfg && d.log == []
  }

  // --------------------------------------------------------------------------------- the ledger

  function Count(log: seq<Mark>, m: Mark): nat {
    if log == [] then 0
    else Count(log[..|log| - 1], m) + if log[|log| - 1] == m then 1 else 0
  }

  function One(b: bool): nat {
    if b then 1 else 0
  }

  /** The last mark that is not a wipe. */
  function LastTalk(log: seq<Mark>): Option<Mark> {
    if log == [] then None
    else if log[|log| - 1].Formatted? then LastTalk(log[..|log| - 1])
    else Some(log[|log| - 1])
  }

  /** At every moment no more wipes than consents, and every consent answers a warning of the same boot
      with nothing asked in between. */
  ghost predicate Consented(log: seq<Mark>) {
    && (forall k | 0 <= k <= |log| :: Count(log[..k], Formatted) <= Count(log[..k], Passed) <= Count(log[..k], Warned))
    && (forall k | 0 <= k < |log| :: log[k].Passed? ==> LastTalk(log[..k]) == Some(Warned))
  }

  /** What the device remembers is covered by the ledger: a marker on the sdcard by a consent not yet used,
      one in /tmp by a warning not yet answered. */
  ghost predicate Ledger(d: Device) {
    && Consented(d.log)
    && Count(d.log, Formatted) + One(d.cfg) <= Count(d.log, Passed)
    && Count(d.log, Passed) + One(d.accept) <= Count(d.log, Warned)
    && (d.accept ==> LastTalk(d.log) == Some(Warned))
  }

  lemma CountSays(log: seq<Mark>, m: Mark, n: Mark)
    ensures Count(log + [m], n) == Count(log, n) + if m == n then 1 else 0
  {
    assert (log + [m])[..|log|] == log;
  }

  lemma TalkSays(log: seq<Mark>, m: Mark)
    ensures LastTalk(log + [m]) == if m.Formatted? then LastTalk(log) else Some(m)
  {
    assert (log + [m])[..|log|] == log;
  }

  /** A mark may be added when the ledger has the credit for it. */
  lemma ConsentedSays(log: seq<Mark>, m: Mark)
    requires Consented(log)
    requires Count(log, Formatted) <= Count(log, Passed) <= Count(log, Warned)
    requires m.Formatted? ==> Count(log, Formatted) < Count(log, Passed)
    requires m.Passed? ==> Count(log, Passed) < Count(log, Warned) && LastTalk(log) == Some(Warned)
    ensures Consented(log + [m])
  {
    hide Count, LastTalk;
    var longer := log + [m];
    CountSays(log, m, Formatted);
    CountSays(log, m, Passed);
    CountSays(log, m, Warned);
    forall k | 0 <= k <= |longer|
      ensures Count(longer[..k], Formatted) <= Count(longer[..k], Passed) <= Count(longer[..k], Warned)
    {
      if k <= |log| {
        assert longer[..k] == log[..k];
      } else {
        assert longer[..k] == longer;
      }
    }
    forall k | 0 <= k < |longer|
      ensures longer[k].Passed? ==> LastTalk(longer[..k]) == Some(Warned)
    {
      assert longer[..k] == log[..k];
      if k == |log| {
        assert log[..k] == log;
      }
    }
  }

  lemma LedgerSays(d: Device, m: Mark, accept: bool, cfg: bool, layout: Layout)
    requires Ledger(d)
    requires match m
             case Warned => !d.accept && accept && cfg == d.cfg
             case Passed => d.accept && !accept && cfg == d.cfg
             case Formatted => 
               && ((d.cfg && !cfg) || Count(d.log, Formatted) + One(d.cfg) < Count(d.log, Passed))
               && accept == d.accept && (cfg ==> d.cfg)
             case Rebooted => !accept && cfg == d.cfg
    ensures Ledger(Device(layout, accept, cfg, d.log + [m]))
    ensures m.Passed? ==> Count(d.log + [m], Formatted) + One(cfg) < Count(d.log + [m], Passed)
  {
    hide Count, LastTalk, Consented;
    ConsentedSays(d.log, m);
    CountSays(d.log, m, Formatted);
    CountSays(d.log, m, Passed);
    CountSays(d.log, m, Warned);
    TalkSays(d.log, m);
  }

  /** A consent that has just been given and not yet been used. */
  ghost predicate Credit(d: Device) {
    Ledger(d) && Count(d.log, Formatted) + One(d.cfg) < Count(d.log, Passed)
  }

  lemma WarnKeeps(d: Device)
    requires Ledger(d)
    ensures var (w, exit) := Warn(d); if exit.Some? then Ledger(w) else Credit(w)
  {
    hide Count, LastTalk, Consented;
    LedgerSays(d, if d.accept then Passed else Warned, !d.accept, d.cfg, d.layout);
  }

  lemma WipeKeeps(d: Device, cfg: bool)
    requires Ledger(d) && (cfg ==> d.cfg)
    requires Credit(d) || (d.cfg && !cfg)
    ensures Ledger(Wipe(d.(cfg := cfg)))
  {
    hide Count, LastTalk, Consented;
    LedgerSays(d, Formatted, d.accept, cfg, d.layout.(pool := Fits));
  }

  lemma RestartKeeps(d: Device, layout: Layout)
    requires Ledger(d)
    ensures Ledger(Restart(d).(layout := layout))
  {
    hide Count, LastTalk, Consented;
    LedgerSays(d, Rebooted, false, d.cfg, layout);
  }

  lemma ScriptKeeps(d: Device, f: Faults)
    requires Ledger(d)
    ensures Ledger(Script(d, f).0)
  {
    hide Count, LastTalk, Consented, Wipe, Restart;
    WarnKeeps(d);
    var (w, exit) := Warn(d);
    hide Warn;
    if exit.None? {
      RestartKeeps(w.(cfg := true), w.layout);
      WipeKeeps(w, w.cfg);
    }
    if d.layout.mtdFits {
      var r := Resize(d).0;
      if Resize(d).1.None? {
        assert Ledger(r) by {
          assert w.(cfg := w.cfg) == w;
        }
        if r.cfg {
          WipeKeeps(r, false);
        }
      }
    }
  }

  /** No wipe without consent, over any sequence of runs, reboots and lost files. */
  lemma {:induction false} NoWipeWithoutConsent(d: Device, events: seq<Event>)
    requires Untouched(d)
    ensures Ledger(AfterAll(d, events))
    decreases |events|
  {
    hide Script, Restart, Ledger;
    if events == [] {
      EmptyLedger(d);
    } else {
      var before := AfterAll(d, events[..|events| - 1]);
      NoWipeWithoutConsent(d, events[..|events| - 1]);
      match events[|events| - 1]
      case Run(f) => ScriptKeeps(before, f);
      case Reboot(layout) => RestartKeeps(before, layout);
      case LoseCfg => LoseKeeps(before);
    }
  }

  lemma EmptyLedger(d: Device)
    requires Untouched(d)
    ensures Ledger(d)
  {
  }

  lemma LoseKeeps(d: Device)
    requires Ledger(d)
    ensures Ledger(d.(cfg := false))
  {
  }

  // ------------------------------------------------------------------------- what a run achieves

  predicate Current(d: Device) {
    !d.layout.bml && d.layout.mtdFits && d.layout.mtdblock0
  }

  /** A run wipes at most once for an answered warning of this boot and once for the marker it finds. */
  lemma RunWipes(d: Device, f: Faults)
    ensures var d' := Script(d, f).0;
      && d.log <= d'.log
      && Count(d'.log, Formatted) - Count(d.log, Formatted) <= One(d.accept) + One(d.cfg)
  {
    hide Count;
    CountSays(d.log, Warned, Formatted);
    CountSays(d.log, Passed, Formatted);
    CountSays(d.log, Formatted, Formatted);
    CountSays(d.log + [Passed], Formatted, Formatted);
    CountSays(d.log + [Passed], Rebooted, Formatted);
    CountSays(d.log + [Passed] + [Formatted], Formatted, Formatted);
  }

  /** On the new layout with fitting volumes and no marker, runs neither ask nor wipe. */
  lemma {:induction false} QuietRuns(d: Device, runs: seq<Event>)
    requires Current(d) && !d.layout.pool.Differs? && !d.cfg
    requires forall k | 0 <= k < |runs| :: runs[k].Run? || runs[k].LoseCfg?
    ensures AfterAll(d, runs) == d
    decreases |runs|
  {
    if runs != [] {
      QuietRuns(d, runs[..|runs| - 1]);
    }
  }

  /** An install that ends well has wiped the device and taken its marker away; running the script again
      does not wipe again. */
  lemma InstallSettles(d: Device, f: Faults, runs: seq<Event>)
    requires Current(d) && d.cfg && Script(d, f).1 == 0
    requires forall k | 0 <= k < |runs| :: runs[k].Run? || runs[k].LoseCfg?
    ensures var d' := Script(d, f).0;
      && !d'.cfg && LastMark(d'.log) == Some(Formatted)
      && AfterAll(d', runs) == d'
  {
    QuietRuns(Script(d, f).0, runs);
  }

  /** The run comes to the restoring of the efs and fails there. */
  predicate RestoreFails(d: Device, f: Faults) {
    && d.layout.gsm && f.efsRestore
    && !f.radioMount && !f.sdMount && (d.layout.pool.Differs? ==> d.accept)
  }

  /** Exactly when a run does well by a pending install: the marker is kept for another run, or the wipe it
      stands for is made, unless restoring the efs fails. */
  lemma PendingInstallKeptIff(d: Device, f: Faults)
    requires Current(d) && d.cfg
    ensures var d' := Script(d, f).0;
      || d'.cfg
      || (&& LastMark(d'.log) == Some(Formatted)
          && Count(d'.log, Formatted) == Count(d.log, Formatted) + One(d.layout.pool.Differs?) + 1)
      <==> !RestoreFails(d, f)
  {
    hide Count;
    ResizeCounts(d);
    var r := Resize(d).0;
    hide Resize;
    CountSays(r.log, Formatted, Formatted);
  }

  /** What the check of the volumes adds to the wipes. */
  lemma ResizeCounts(d: Device)
    ensures var (r, exit) := Resize(d);
      && (exit.None? ==> Count(r.log, Formatted) == Count(d.log, Formatted) + One(d.layout.pool.Differs?))
      && (exit.Some? <==> d.layout.pool.Differs? && !d.accept)
      && r.cfg == d.cfg && r.layout == d.layout.(pool := r.layout.pool)
  {
    hide Count;
    CountSays(d.log, Passed, Formatted);
    CountSays(d.log + [Passed], Formatted, Formatted);
  }

  /** When it fails, the marker is gone with nothing wiped for it, and running the script again does not take
      the install up. */
  lemma FailedRestoreLosesInstall(d: Device, f: Faults, runs: seq<Event>)
    requires Current(d) && d.cfg && RestoreFails(d, f)
    requires forall k | 0 <= k < |runs| :: runs[k].Run? || runs[k].LoseCfg?
    ensures Script(d, f).1 == 6
    ensures var d' := AfterAll(Script(d, f).0, runs);
      !d'.cfg && Count(d'.log, Formatted) - Count(d.log, Formatted) == One(d.layout.pool.Differs?)
  {
    QuietRuns(Script(d, f).0, runs);
    ResizeCounts(d);
  }

  /** It happens: warned, agreed, rebooted into the new layout, and the efs cannot be mounted. */
  lemma InstallCanBeLost() returns (d: Device, events: seq<Event>)
    ensures Untouched(d) && Consented(AfterAll(d, events).log)
    ensures var e := AfterAll(d, events);
      && Current(e) && !e.cfg && Count(e.log, Passed) == 1 && Count(e.log, Formatted) == 0
  {
    var stock, current := Layout(true, false, false, Absent, true), Layout(false, true, true, Absent, true);
    var fine := Faults(false, false, false, false, false);
    d := Device(stock, false, false, []);
    events := [Run(fine), Run(fine), Reboot(current), Run(fine.(efsRestore := true))];
    assert events[..3][..2][..1] == [Run(fine)] && events[..3][..2] == [Run(fine), Run(fine)];
    assert AfterAll(d, [Run(fine)]) == Device(stock, true, false, [Warned]);
    assert AfterAll(d, events[..3][..2]) == Device(stock, false, true, [Warned, Passed, Rebooted]);
    assert AfterAll(d, events[..3]) == Device(current, false, true, [Warned, Passed, Rebooted, Rebooted]);
    assert AfterAll(d, events) == Device(current, false, false, [Warned, Passed, Rebooted, Rebooted]);
    NoWipeWithoutConsent(d, events);
    CountSays([], Warned, Passed);
    CountSays([Warned], Passed, Passed);
    CountSays([Warned, Passed], Rebooted, Passed);
    CountSays([Warned, Passed, Rebooted], Rebooted, Passed);
    CountSays([], Warned, Formatted);
    CountSays([Warned], Passed, Formatted);
    CountSays([Warned, Passed], Rebooted, Formatted);
    CountSays([Warned, Passed, Rebooted], Rebooted, Formatted);
  }

  function LastMark(log: seq<Mark>): Option<Mark> {
    if log == [] then None else Some(log[|log| - 1])
  }
}
