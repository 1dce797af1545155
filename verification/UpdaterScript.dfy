/** The script as it is written: commands that test, create and remove files, one after the other. */
module UpdaterScript {
  import opened Options
  import U = Updater

  class Recovery {
    var layout: U.Layout
    var accept: bool
    var cfg: bool
    var log: seq<U.Mark>

    constructor (layout: U.Layout)
      ensures U.Untouched(Model()) && this.layout == layout && U.Ledger(Model())
    {
      this.layout, accept, cfg, log := layout, false, false, [];
      new;
      U.EmptyLedger(Model());
    }

    ghost function Model(): U.Device
      reads this
    {
      U.Device(layout, accept, cfg, log)
    }

    method WarnRepartition() returns (exit: Option<int>)
      modifies this
      ensures (Model(), exit) == U.Warn(old(Model()))
    {
      if !accept {
        accept := true;
        log := log + [U.Warned];
        return Some(9);
      }
      accept := false;
      log := log + [U.Passed];
      return None;
    }

    /** setup_lvm_partitions and format_partitions */
    method FormatPartitions()
      modifies this
      ensures Model() == U.Wipe(old(Model()))
    {
      layout := layout.(pool := U.Fits);
      log := log + [U.Formatted];
    }

    method Reboot()
      modifies this
      ensures Model() == U.Restart(old(Model()))
      ensures old(U.Ledger(Model())) ==> U.Ledger(Model())
    {
      ghost var before := Model();
      accept := false;
      log := log + [U.Rebooted];
      hide U.Ledger;
      if U.Ledger(before) {
        U.RestartKeeps(before, before.layout);
      }
    }

    /** The whole script; what it finds mounted or fails to mount is up to faults. Whatever happens, wipes
        stay covered by consents. */
    method Script(faults: U.Faults) returns (exit: int)
      modifies this
      ensures (Model(), exit) == U.Script(old(Model()), faults)
      ensures old(U.Ledger(Model())) ==> U.Ledger(Model())
    {
      exit := Branch(faults);
      hide U.Script, U.Ledger;
      if old(U.Ledger(Model())) {
        U.ScriptKeeps(old(Model()), faults);
      }
    }

    method Branch(faults: U.Faults) returns (exit: int)
      modifies this
      ensures (Model(), exit) == U.Script(old(Model()), faults)
    {
      if layout.bml {
        exit := FromStock(faults);
      } else if !layout.mtdFits {
        exit := FromOldMtd(faults);
      } else if layout.mtdblock0 {
        exit := FromCurrent(faults);
      } else {
        exit := 0;
      }
    }

    method FromStock(faults: U.Faults) returns (exit: int)
      modifies this
      ensures (Model(), exit) == U.FromStock(old(Model()), faults)
    {
      var warned := WarnRepartition();
      if warned.Some? {
        return warned.value;
      }
      if faults.sdMount {
        return 1;
      }
      if layout.gsm && faults.efsMount {
        return 1;
      }
      cfg := true;
      if faults.flash {
        return 3;
      }
      Reboot();
      exit := 0;
    }

    method FromOldMtd(faults: U.Faults) returns (exit: int)
      modifies this
      ensures (Model(), exit) == U.FromOldMtd(old(Model()), faults)
    {
      var warned := WarnRepartition();
      if warned.Some? {
        return warned.value;
      }
      if faults.sdMount {
        return 1;
      }
      cfg := true;
      if layout.gsm && faults.efsMount {
        return 1;
      }
      Reboot();
      exit := 0;
    }

    method FromCurrent(faults: U.Faults) returns (exit: int)
      modifies this
      ensures (Model(), exit) == U.FromCurrent(old(Model()), faults)
    {
      if layout.gsm && faults.radioMount {
        return 5;
      }
      if layout.pool.Differs? {
        var warned := WarnRepartition();
        if warned.Some? {
          return warned.value;
        }
        FormatPartitions();
      }
      if faults.sdMount {
        return 1;
      }
      if !cfg {
        return 0;
      }
      cfg := false;
      if layout.gsm && faults.efsRestore {
        return 6;
      }
      FormatPartitions();
      exit := 0;
    }
  }
}
