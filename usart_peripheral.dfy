/**
 * The USART handle: an owned register block plus a configuration-state
 * tag, moved between `Disabled` and `Enabled(word, mode)` by methods that
 * update the registers and the clock controller step by step.
 *
 * The driver enforces the state tag at compile time; here it is a runtime
 * field and every method requires the state it is legal in.  Each method
 * is proved to perform exactly the step of `UsartProtocol.Step`.  So the
 * lemmas proved there about sequences of calls hold of this class, as long
 * as nothing outside the handle writes its register block or gates its
 * clock between calls.
 */
module UsartPeripheral {
  import opened Wrappers
  import opened UsartTypes
  import opened UsartRegisters
  import opened UsartProtocol
  import opened Syscon
  import opened AccessLog

  /** One USART instance's memory-mapped registers. */
  class RegisterBlock {
    const id: InstanceId
    /** Every access to this instance's hardware, in order. */
    ghost const trace: Trace
    /** The clock controller that gates this instance's clock. */
    ghost const clocks: Handle
    var brg: nat
    var osr: nat
    var cfg: Cfg
    var ctl: Ctl
    var intEn: set<Source>

    constructor (id: InstanceId, reset: Regs, ghost clocks: Handle)
      ensures this.id == id && Snapshot() == reset && this.clocks == clocks
      ensures fresh(trace) && trace.entries == []
    {
      this.id := id;
      this.clocks := clocks;
      trace := new Trace();
      brg, osr, cfg, ctl, intEn := reset.brg, reset.osr, reset.cfg, reset.ctl, reset.intEn;
    }

    /** The register contents as a value. */
    function Snapshot(): Regs
      reads this
    {
      Regs(brg, osr, cfg, ctl, intEn)
    }

    /** `brg.write`: overwrite the divisor. */
    method WriteBrg(brgval: nat)
      requires id in clocks.enabledClocks
      modifies this, trace
      ensures trace.entries == old(trace.entries) + [Access.WriteBrg(brgval)]
      ensures Snapshot() == old(Snapshot()).(brg := brgval)
    {
      brg := brgval;
      trace.entries := trace.entries + [Access.WriteBrg(brgval)];
    }

    /** `osr.write`: overwrite the oversample count. */
    method WriteOsr(osrval: nat)
      requires id in clocks.enabledClocks
      modifies this, trace
      ensures trace.entries == old(trace.entries) + [Access.WriteOsr(osrval)]
      ensures Snapshot() == old(Snapshot()).(osr := osrval)
    {
      osr := osrval;
      trace.entries := trace.entries + [Access.WriteOsr(osrval)];
    }

    /** `cfg.modify`: one read-modify-write of CFG. */
    method ModifyCfg(f: Cfg -> Cfg)
      requires id in clocks.enabledClocks
      modifies this, trace
      ensures trace.entries == old(trace.entries) + [Access.ModifyCfg]
      ensures Snapshot() == old(Snapshot()).(cfg := f(old(cfg)))
    {
      cfg := f(cfg);
      trace.entries := trace.entries + [Access.ModifyCfg];
    }

    /** `ctl.modify`: one read-modify-write of CTL. */
    method ModifyCtl(f: Ctl -> Ctl)
      requires id in clocks.enabledClocks
      modifies this, trace
      ensures trace.entries == old(trace.entries) + [Access.ModifyCtl]
      ensures Snapshot() == old(Snapshot()).(ctl := f(old(ctl)))
    {
      ctl := f(ctl);
      trace.entries := trace.entries + [Access.ModifyCtl];
    }

    /** Write-one-to-set of the interrupt enables. */
    method SetInterruptEnables(sources: set<Source>)
      requires id in clocks.enabledClocks
      modifies this, trace
      ensures trace.entries == old(trace.entries) + [Access.SetInterruptEnables(sources)]
      ensures Snapshot() == old(Snapshot()).(intEn := old(intEn) + sources)
    {
      intEn := intEn + sources;
      trace.entries := trace.entries + [Access.SetInterruptEnables(sources)];
    }

    /** Write-one-to-clear of the interrupt enables. */
    method ClearInterruptEnables(sources: set<Source>)
      requires id in clocks.enabledClocks
      modifies this, trace
      ensures trace.entries == old(trace.entries) + [Access.ClearInterruptEnables(sources)]
      ensures Snapshot() == old(Snapshot()).(intEn := old(intEn) - sources)
    {
      intEn := intEn - sources;
      trace.entries := trace.entries + [Access.ClearInterruptEnables(sources)];
    }
  }

  /** `USART<I, State>` */
  class Usart {
    /** The owned register block (`usart: I`). */
    const usart: RegisterBlock
    /** The `State` type parameter. */
    var state: ConfigState
    /** Whether the handle still exists: `free` consumes it. */
    ghost var live: bool

    /** `USART::new`: a disabled handle over the given register block. */
    constructor (usart: RegisterBlock)
      ensures this.usart == usart && state == Disabled && live
      ensures Valid()
    {
      this.usart := usart;
      state := Disabled;
      live := true;
    }

    /** The handle as the protocol model sees it, given this instance's clock gate and source. */
    ghost function ViewWith(clockOn: bool, source: Option<ClockSourceId>): Machine
      reads this, usart
    {
      Machine(state, usart.Snapshot(), clockOn, source, live)
    }

    /** The handle as the protocol model sees it, with this instance's clock entries. */
    ghost function View(syscon: Handle): Machine
      reads this, usart, syscon
    {
      ViewWith(usart.id in syscon.enabledClocks,
               if usart.id in syscon.clockSource then Some(syscon.clockSource[usart.id]) else None)
    }

    /**
     * The class invariant: a live handle is consistent with the clock
     * controller of its register block.  Every method keeps it.  Code
     * outside the handle that writes the register block or gates this
     * instance's clock can break it; then only `free` can still be called.
     */
    ghost predicate Valid()
      reads this, usart, usart.clocks
    {
      live ==> Consistent(View(usart.clocks))
    }

    /** `configure`: clock on, clock source selected, then one CTL modify. */
    method Configure(syscon: Handle, source: ClockSourceId)
      requires syscon == usart.clocks
      requires live && state == Disabled
      modifies usart, usart.trace, syscon
      ensures usart.Snapshot() == old(usart.Snapshot()).(ctl := ConfigureCtl(old(usart.ctl)))
      ensures syscon.enabledClocks == old(syscon.enabledClocks) + {usart.id}
      ensures syscon.clockSource == old(syscon.clockSource)[usart.id := source]
      ensures usart.trace.entries == old(usart.trace.entries) + [EnableClock, SelectClock(source), ModifyCtl]
    {
      syscon.EnableClock(usart.id, usart.trace);
      syscon.SelectClock(usart.id, source, usart.trace);
      usart.ModifyCtl(ConfigureCtl);
    }

    /** `enable_async` */
    method EnableAsync(clock: Clock, syscon: Handle, settings: Settings)
      requires syscon == usart.clocks
      requires Valid()
      requires live && state == Disabled && clock.mode == AsyncMode
      modifies this, usart, usart.trace, syscon
      ensures Valid()
      ensures live && state == Enabled(settings.word, AsyncMode)
      ensures usart.Snapshot() == AsyncRegs(old(usart.Snapshot()), clock, settings)
      ensures syscon.enabledClocks == old(syscon.enabledClocks) + {usart.id}
      ensures syscon.clockSource == old(syscon.clockSource)[usart.id := clock.source]
      ensures usart.trace.entries == old(usart.trace.entries) + EnableAccesses(Op.EnableAsync(clock, settings))
      ensures Step(old(View(syscon)), Op.EnableAsync(clock, settings))
           == Ok(Outcome(View(syscon), EnableAccesses(Op.EnableAsync(clock, settings))))
    {
      Configure(syscon, clock.source);
      usart.WriteBrg(clock.brgval);
      usart.WriteOsr(clock.osrval);
      usart.ModifyCfg(w => CommitCfg(w, AsyncRole, settings));
      state := Enabled(settings.word, AsyncMode);
    }

    /** `enable_sync_as_master` */
    method EnableSyncAsMaster(clock: Clock, syscon: Handle, settings: Settings)
      requires syscon == usart.clocks
      requires Valid()
      requires live && state == Disabled && clock.mode == SyncMode
      modifies this, usart, usart.trace, syscon
      ensures Valid()
      ensures live && state == Enabled(settings.word, SyncMode)
      ensures usart.Snapshot() == SyncMasterRegs(old(usart.Snapshot()), clock, settings)
      ensures syscon.enabledClocks == old(syscon.enabledClocks) + {usart.id}
      ensures syscon.clockSource == old(syscon.clockSource)[usart.id := clock.source]
      ensures usart.trace.entries == old(usart.trace.entries) + EnableAccesses(Op.EnableSyncAsMaster(clock, settings))
      ensures Step(old(View(syscon)), Op.EnableSyncAsMaster(clock, settings))
           == Ok(Outcome(View(syscon), EnableAccesses(Op.EnableSyncAsMaster(clock, settings))))
    {
      Configure(syscon, clock.source);
      usart.WriteBrg(clock.brgval);
      usart.ModifyCfg(w => CommitCfg(w, SyncMaster, settings));
      state := Enabled(settings.word, SyncMode);
    }

    /** `enable_sync_as_slave`: the bit clock comes from outside, so no BRG or OSR. */
    method EnableSyncAsSlave(source: ClockSourceId, syscon: Handle, settings: Settings)
      requires syscon == usart.clocks
      requires Valid()
      requires live && state == Disabled
      modifies this, usart, usart.trace, syscon
      ensures Valid()
      ensures live && state == Enabled(settings.word, SyncMode)
      ensures usart.Snapshot() == SyncSlaveRegs(old(usart.Snapshot()), settings)
      ensures syscon.enabledClocks == old(syscon.enabledClocks) + {usart.id}
      ensures syscon.clockSource == old(syscon.clockSource)[usart.id := source]
      ensures usart.trace.entries == old(usart.trace.entries) + EnableAccesses(Op.EnableSyncAsSlave(source, settings))
      ensures Step(old(View(syscon)), Op.EnableSyncAsSlave(source, settings))
           == Ok(Outcome(View(syscon), EnableAccesses(Op.EnableSyncAsSlave(source, settings))))
    {
      Configure(syscon, source);
      usart.ModifyCfg(w => CommitCfg(w, SyncSlave, settings));
      state := Enabled(settings.word, SyncMode);
    }

    /** `disable`: gate the clock off; no USART register is written. */
    method Disable(syscon: Handle)
      requires syscon == usart.clocks
      requires Valid()
      requires live && state.Enabled?
      modifies this, usart.trace, syscon
      ensures Valid()
      ensures live && state == Disabled
      ensures usart.Snapshot() == old(usart.Snapshot())
      ensures syscon.enabledClocks == old(syscon.enabledClocks) - {usart.id}
      ensures syscon.clockSource == old(syscon.clockSource)
      ensures usart.trace.entries == old(usart.trace.entries) + [DisableClock]
      ensures Step(old(View(syscon)), Op.Disable) == Ok(Outcome(View(syscon), [DisableClock]))
    {
      syscon.DisableClock(usart.id, usart.trace);
      state := Disabled;
    }

    /**
     * `enable_interrupts`: enable the sources flagged `true`, leave the
     * others.  The clock controller is not touched.
     */
    method EnableInterrupts(interrupts: Interrupts)
      requires Valid()
      requires live && state.Enabled?
      modifies usart, usart.trace
      ensures Valid()
      ensures usart.Snapshot() == old(usart.Snapshot()).(intEn := WithEnabled(old(usart.intEn), interrupts))
      ensures usart.trace.entries == old(usart.trace.entries) + [SetInterruptEnables(interrupts.FlaggedSet())]
      ensures forall on, source ::
                Step(ViewWith(on, source).(regs := old(usart.Snapshot())), Op.EnableInterrupts(interrupts))
                == Ok(Outcome(ViewWith(on, source), [SetInterruptEnables(interrupts.FlaggedSet())]))
    {
      usart.SetInterruptEnables(interrupts.FlaggedSet());
    }

    /** `disable_interrupts`: disable the sources flagged `true`, leave the others. */
    method DisableInterrupts(interrupts: Interrupts)
      requires Valid()
      requires live && state.Enabled?
      modifies usart, usart.trace
      ensures Valid()
      ensures usart.Snapshot() == old(usart.Snapshot()).(intEn := WithDisabled(old(usart.intEn), interrupts))
      ensures usart.trace.entries == old(usart.trace.entries) + [ClearInterruptEnables(interrupts.FlaggedSet())]
      ensures forall on, source ::
                Step(ViewWith(on, source).(regs := old(usart.Snapshot())), Op.DisableInterrupts(interrupts))
                == Ok(Outcome(ViewWith(on, source), [ClearInterruptEnables(interrupts.FlaggedSet())]))
    {
      usart.ClearInterruptEnables(interrupts.FlaggedSet());
    }

    /** `free`: hand out the raw register block; the handle is consumed. */
    method Free() returns (raw: RegisterBlock)
      requires live
      modifies this`live
      ensures raw == usart && !live
      ensures Valid()
      ensures forall on, source ::
                Step(ViewWith(on, source).(live := true), Op.Free) == Ok(Outcome(ViewWith(on, source), []))
    {
      raw := usart;
      live := false;
    }
  }
}
