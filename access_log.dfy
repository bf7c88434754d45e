/**
 * The hardware accesses one USART instance's driver makes, in program
 * order: the clock controller calls for this instance and the reads and
 * writes of its own register block.  Every call that touches the hardware
 * appends its access to a `Trace`, so the order of the calls is the order
 * of the trace.
 */
module AccessLog {
  import opened UsartTypes

  /** One access to the hardware. */
  datatype Access =
    | EnableClock                    // syscon.enable_clock
    | SelectClock(source: ClockSourceId)  // C::select
    | DisableClock                   // syscon.disable_clock
    | ModifyCtl                      // ctl.modify
    | WriteBrg(brgval: nat)          // brg.write
    | WriteOsr(osrval: nat)          // osr.write
    | ModifyCfg                      // cfg.modify
    | SetInterruptEnables(set<Source>)
    | ClearInterruptEnables(set<Source>)

  /** Accesses to the USART's own registers, as opposed to the clock controller. */
  predicate IsRegisterAccess(a: Access) {
    !(a.EnableClock? || a.SelectClock? || a.DisableClock?)
  }

  /** The accesses made so far, oldest first. */
  class Trace {
    ghost var entries: seq<Access>

    ghost constructor ()
      ensures entries == []
    {
      entries := [];
    }
  }
}
