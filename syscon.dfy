/**
 * The part of the system clock controller's handle (`syscon::Handle`) that
 * the USART driver uses: per-instance clock gates and clock-source
 * selection.  Other peripherals' entries are left alone by every call.
 * Each call appends its access to the trace it is given; the USART
 * handle passes the trace of its own register block.
 */
module Syscon {
  import opened UsartTypes
  import opened AccessLog

  /** Which peripheral instance a clock gate or source selection belongs to. */
  type InstanceId = nat

  class Handle {
    var enabledClocks: set<InstanceId>
    var clockSource: map<InstanceId, ClockSourceId>

    constructor (enabled: set<InstanceId>, sources: map<InstanceId, ClockSourceId>)
      ensures enabledClocks == enabled && clockSource == sources
    {
      enabledClocks := enabled;
      clockSource := sources;
    }

    /** `enable_clock`: ungate the clock of instance `id`. */
    method EnableClock(id: InstanceId, ghost trace: Trace)
      modifies this, trace
      ensures trace.entries == old(trace.entries) + [Access.EnableClock]
      ensures enabledClocks == old(enabledClocks) + {id}
      ensures clockSource == old(clockSource)
    {
      enabledClocks := enabledClocks + {id};
      trace.entries := trace.entries + [Access.EnableClock];
    }

    /** `disable_clock`: gate off the clock of instance `id`. */
    method DisableClock(id: InstanceId, ghost trace: Trace)
      modifies this, trace
      ensures trace.entries == old(trace.entries) + [Access.DisableClock]
      ensures enabledClocks == old(enabledClocks) - {id}
      ensures clockSource == old(clockSource)
    {
      enabledClocks := enabledClocks - {id};
      trace.entries := trace.entries + [Access.DisableClock];
    }

    /** `ClockSource::select`: make `source` the clock source of instance `id`. */
    method SelectClock(id: InstanceId, source: ClockSourceId, ghost trace: Trace)
      modifies this, trace
      ensures trace.entries == old(trace.entries) + [Access.SelectClock(source)]
      ensures clockSource == old(clockSource)[id := source]
      ensures enabledClocks == old(enabledClocks)
    {
      clockSource := clockSource[id := source];
      trace.entries := trace.entries + [Access.SelectClock(source)];
    }
  }
}
