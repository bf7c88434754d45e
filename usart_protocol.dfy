/**
 * The configuration protocol of one USART instance, as pure functions.
 *
 * The register-level effect of each transition (`configure`,
 * `apply_general_config`, the three `enable_*` and `disable`), and a
 * step semantics over a whole handle: which calls the typestate admits in
 * which state, what each admitted call does to the registers and the clock
 * controller, and in which order it touches the hardware.  The lemmas at
 * the end state what holds along any sequence of admitted calls.
 */
module UsartProtocol {
  import opened Wrappers
  import opened UsartTypes
  import opened UsartRegisters
  import opened AccessLog

  // ---------------------------------------------------------------------
  // configure: the CTL write shared by all three enable transitions
  // ---------------------------------------------------------------------

  /** CTL as `configure` leaves it. */
  predicate CtlConfigured(c: Ctl) {
    && c.txbrken == NoBreak
    && !c.addrdet
    && c.txdis == TxEnabled
    && c.cc == ContinuousClock
    && !c.autobaud
  }

  /** The read-modify-write of CTL in `configure`. */
  function ConfigureCtl(c: Ctl): (r: Ctl)
    ensures CtlConfigured(r)
    ensures r.rest == c.rest
  {
    c.(txbrken := NoBreak, addrdet := false, txdis := TxEnabled, cc := ContinuousClock, autobaud := false)
  }

  // ---------------------------------------------------------------------
  // the composite CFG write: mode bits, general config, settings
  // ---------------------------------------------------------------------

  /** The three ways of enabling the peripheral. */
  datatype Role = AsyncRole | SyncMaster | SyncSlave

  /** The mode tag of the handle each role produces. */
  function ModeOf(role: Role): ModeTag {
    if role == AsyncRole then AsyncMode else SyncMode
  }

  /** CFG's mode bits as the enable transition for `role` sets them. */
  predicate ModeBitsFor(role: Role, w: Cfg) {
    match role
    case AsyncRole => w.syncen == AsynchronousMode
    case SyncMaster => w.syncen == SynchronousMode && w.syncmst == Master
    case SyncSlave => w.syncen == SynchronousMode && w.syncmst == Slave
  }

  /** The mode-bit writes at the head of each `cfg.modify` closure. */
  function SetModeBits(w: Cfg, role: Role): (r: Cfg)
    ensures ModeBitsFor(role, r)
    ensures role == AsyncRole ==> r.syncmst == w.syncmst
    ensures r.(syncen := w.syncen, syncmst := w.syncmst) == w
  {
    match role
    case AsyncRole => w.(syncen := AsynchronousMode)
    case SyncMaster => w.(syncen := SynchronousMode, syncmst := Master)
    case SyncSlave => w.(syncen := SynchronousMode, syncmst := Slave)
  }

  /** CFG as `apply_general_config` leaves it. */
  predicate GeneralConfigApplied(w: Cfg) {
    w.enable && !w.ctsen && w.loopMode == Normal && w.autoaddr
  }

  /** `apply_general_config`: enable, no CTS, no loopback, automatic address matching. */
  function ApplyGeneralConfig(w: Cfg): (r: Cfg)
    ensures GeneralConfigApplied(r)
    ensures r.(enable := w.enable, ctsen := w.ctsen, loopMode := w.loopMode, autoaddr := w.autoaddr) == w
  {
    w.(enable := true, ctsen := false, loopMode := Normal, autoaddr := true)
  }

  /** `settings.apply`: writes the line-format bits and nothing else. */
  function ApplySettings(w: Cfg, s: Settings): (r: Cfg)
    ensures r.format == s.format
    ensures r.(format := w.format) == w
  {
    w.(format := s.format)
  }

  /** The whole closure given to `cfg.modify`: mode bits, then general config, then settings. */
  function CommitCfg(w: Cfg, role: Role, s: Settings): (r: Cfg)
    ensures ModeBitsFor(role, r) && GeneralConfigApplied(r) && r.format == s.format
    ensures r.rest == w.rest
    ensures role == AsyncRole ==> r.syncmst == w.syncmst
  {
    ApplySettings(ApplyGeneralConfig(SetModeBits(w, role)), s)
  }

  // ---------------------------------------------------------------------
  // register-level effect of the enable transitions
  // ---------------------------------------------------------------------

  /** The CTL fields `configure` writes. */
  const CTL_WRITTEN: set<Field> := {CtlTxbrken, CtlAddrdet, CtlTxdis, CtlCc, CtlAutobaud}

  /** The CFG fields every enable transition writes. */
  const CFG_WRITTEN: set<Field> := {CfgEnable, CfgSyncen, CfgCtsen, CfgLoop, CfgAutoaddr, CfgFormat}

  /** Every field the enable transition for `role` writes. */
  function Written(role: Role): set<Field> {
    match role
    case AsyncRole => {Brg, Osr} + CFG_WRITTEN + CTL_WRITTEN
    case SyncMaster => {Brg, CfgSyncmst} + CFG_WRITTEN + CTL_WRITTEN
    case SyncSlave => {CfgSyncmst} + CFG_WRITTEN + CTL_WRITTEN
  }

  /** What every enable transition commits to CFG and CTL. */
  predicate Committed(r: Regs, role: Role, s: Settings) {
    && CtlConfigured(r.ctl)
    && GeneralConfigApplied(r.cfg)
    && ModeBitsFor(role, r.cfg)
    && r.cfg.format == s.format
  }

  /** `enable_async`: configure, BRG, OSR, then one CFG modify. */
  function AsyncRegs(r: Regs, clock: Clock, s: Settings): (r': Regs)
    ensures r'.brg == clock.brgval && r'.osr == clock.osrval
    ensures Committed(r', AsyncRole, s)
    ensures AgreeOutside(r, r', Written(AsyncRole))
  {
    var configured := r.(ctl := ConfigureCtl(r.ctl));
    var divided := configured.(brg := clock.brgval, osr := clock.osrval);
    divided.(cfg := CommitCfg(divided.cfg, AsyncRole, s))
  }

  /** `enable_sync_as_master`: configure, BRG, then one CFG modify; OSR untouched. */
  function SyncMasterRegs(r: Regs, clock: Clock, s: Settings): (r': Regs)
    ensures r'.brg == clock.brgval && r'.osr == r.osr
    ensures Committed(r', SyncMaster, s)
    ensures AgreeOutside(r, r', Written(SyncMaster))
  {
    var configured := r.(ctl := ConfigureCtl(r.ctl));
    var divided := configured.(brg := clock.brgval);
    divided.(cfg := CommitCfg(divided.cfg, SyncMaster, s))
  }

  /** `enable_sync_as_slave`: configure, then one CFG modify; BRG and OSR untouched. */
  function SyncSlaveRegs(r: Regs, s: Settings): (r': Regs)
    ensures r'.brg == r.brg && r'.osr == r.osr
    ensures Committed(r', SyncSlave, s)
    ensures AgreeOutside(r, r', Written(SyncSlave))
  {
    var configured := r.(ctl := ConfigureCtl(r.ctl));
    configured.(cfg := CommitCfg(configured.cfg, SyncSlave, s))
  }

  // ---------------------------------------------------------------------
  // interrupt enables
  // ---------------------------------------------------------------------

  /** `enable_interrupts`: the sources flagged `true` become enabled. */
  function WithEnabled(en: set<Source>, m: Interrupts): (r: set<Source>)
    ensures forall s :: m.Flagged(s) ==> s in r
    ensures forall s :: !m.Flagged(s) ==> (s in r <==> s in en)
  {
    en + m.FlaggedSet()
  }

  /** `disable_interrupts`: the sources flagged `true` become disabled. */
  function WithDisabled(en: set<Source>, m: Interrupts): (r: set<Source>)
    ensures forall s :: m.Flagged(s) ==> s !in r
    ensures forall s :: !m.Flagged(s) ==> (s in r <==> s in en)
  {
    en - m.FlaggedSet()
  }

  // ---------------------------------------------------------------------
  // a handle and the calls made on it
  // ---------------------------------------------------------------------

  /**
   * One handle as seen by its owner: the state tag, the register block,
   * this instance's clock gate and clock source in the clock controller,
   * and whether the handle still exists (`free` consumes it).
   */
  datatype Machine = Machine(
    state: ConfigState,
    regs: Regs,
    clockOn: bool,
    source: Option<ClockSourceId>,
    live: bool)

  /** A call on the handle, with its arguments. */
  datatype Op =
    | EnableAsync(clock: Clock, settings: Settings)
    | EnableSyncAsMaster(clock: Clock, settings: Settings)
    | EnableSyncAsSlave(source: ClockSourceId, settings: Settings)
    | Disable
    | EnableInterrupts(interrupts: Interrupts)
    | DisableInterrupts(interrupts: Interrupts)
    | Free

  /** Why a call does not type-check against the handle. */
  datatype StepError = Consumed | NotDisabled | NotEnabled | WrongClockMode

  /** The handle after a call, and the hardware accesses it made. */
  datatype Outcome = Outcome(next: Machine, accesses: seq<Access>)

  /** The calls the typestate admits on a handle. */
  predicate Admits(m: Machine, op: Op) {
    m.live &&
    match op
    case EnableAsync(clock, _) => m.state == Disabled && clock.mode == AsyncMode
    case EnableSyncAsMaster(clock, _) => m.state == Disabled && clock.mode == SyncMode
    case EnableSyncAsSlave(_, _) => m.state == Disabled
    case Free => true
    case _ => m.state.Enabled?
  }

  /** An enable call with a clock built for its mode. */
  predicate IsEnable(op: Op) {
    || (op.EnableAsync? && op.clock.mode == AsyncMode)
    || (op.EnableSyncAsMaster? && op.clock.mode == SyncMode)
    || op.EnableSyncAsSlave?
  }

  function RoleOf(op: Op): Role
    requires IsEnable(op)
  {
    match op
    case EnableAsync(_, _) => AsyncRole
    case EnableSyncAsMaster(_, _) => SyncMaster
    case EnableSyncAsSlave(_, _) => SyncSlave
  }

  /** The registers after an enable call. */
  function EnabledRegs(r: Regs, op: Op): (r': Regs)
    requires IsEnable(op)
    ensures Committed(r', RoleOf(op), op.settings)
    ensures AgreeOutside(r, r', Written(RoleOf(op)))
  {
    match op
    case EnableAsync(clock, s) => AsyncRegs(r, clock, s)
    case EnableSyncAsMaster(clock, s) => SyncMasterRegs(r, clock, s)
    case EnableSyncAsSlave(_, s) => SyncSlaveRegs(r, s)
  }

  /** The clock source an enable call selects. */
  function SourceOf(op: Op): ClockSourceId
    requires IsEnable(op)
  {
    if op.EnableSyncAsSlave? then op.source else op.clock.source
  }

  /** The accesses of an enable call: configure first, then BRG/OSR, then CFG. */
  function EnableAccesses(op: Op): seq<Access>
    requires IsEnable(op)
  {
    [EnableClock, SelectClock(SourceOf(op)), ModifyCtl]
    + (match op
       case EnableAsync(clock, _) => [WriteBrg(clock.brgval), WriteOsr(clock.osrval)]
       case EnableSyncAsMaster(clock, _) => [WriteBrg(clock.brgval)]
       case EnableSyncAsSlave(_, _) => [])
    + [ModifyCfg]
  }

  /**
   * What the handle's owner can rely on: an enabled handle has its clock
   * running, a clock source selected and the registers configured for its
   * mode.
   */
  predicate Consistent(m: Machine) {
    m.state.Enabled? ==>
      && m.clockOn
      && m.source.Some?
      && CtlConfigured(m.regs.ctl)
      && GeneralConfigApplied(m.regs.cfg)
      && (m.regs.cfg.syncen == AsynchronousMode <==> m.state.mode == AsyncMode)
  }

  /** One call on the handle; a call the typestate rejects is an error. */
  function Step(m: Machine, op: Op): (r: Result<Outcome, StepError>)
    ensures r.Ok? <==> Admits(m, op)
    ensures r.Ok? && Consistent(m) ==> Consistent(r.value.next)
    ensures r.Ok? && op != Free ==> r.value.next.live
    ensures r.Ok? && IsEnable(op) ==> r.value.next.state == Enabled(op.settings.word, ModeOf(RoleOf(op)))
    ensures r.Ok? && op == Disable ==> r.value.next == m.(state := Disabled, clockOn := false)
  {
    if !m.live then Err(Consumed)
    else match op
      case Free =>
        Ok(Outcome(m.(live := false), []))
      case Disable =>
        if !m.state.Enabled? then Err(NotEnabled)
        else Ok(Outcome(m.(state := Disabled, clockOn := false), [DisableClock]))
      case EnableInterrupts(mask) =>
        if !m.state.Enabled? then Err(NotEnabled)
        else Ok(Outcome(m.(regs := m.regs.(intEn := WithEnabled(m.regs.intEn, mask))),
                        [SetInterruptEnables(mask.FlaggedSet())]))
      case DisableInterrupts(mask) =>
        if !m.state.Enabled? then Err(NotEnabled)
        else Ok(Outcome(m.(regs := m.regs.(intEn := WithDisabled(m.regs.intEn, mask))),
                        [ClearInterruptEnables(mask.FlaggedSet())]))
      case _ =>
        if !m.state.Disabled? then Err(NotDisabled)
        else if !IsEnable(op) then Err(WrongClockMode)
        else
          var role := RoleOf(op);
          Ok(Outcome(Machine(Enabled(op.settings.word, ModeOf(role)), EnabledRegs(m.regs, op),
                             true, Some(SourceOf(op)), true),
                     EnableAccesses(op)))
  }

  /** A sequence of calls; stops at the first call the typestate rejects. */
  function Run(m: Machine, ops: seq<Op>): (r: Result<Outcome, StepError>)
    ensures r.Ok? && Consistent(m) ==> Consistent(r.value.next)
    decreases |ops|
  {
    if ops == [] then Ok(Outcome(m, []))
    else match Step(m, ops[0])
      case Err(e) => Err(e)
      case Ok(first) =>
        match Run(first.next, ops[1..])
        case Err(e) => Err(e)
        case Ok(rest) => Ok(Outcome(rest.next, first.accesses + rest.accesses))
  }

  // ---------------------------------------------------------------------
  // the clock gate along a sequence of accesses
  // ---------------------------------------------------------------------

  function ClockNext(on: bool, a: Access): bool {
    match a
    case EnableClock => true
    case DisableClock => false
    case _ => on
  }

  /** The clock gate after `log`, starting from `on`. */
  function ClockAfter(on: bool, log: seq<Access>): bool
    decreases |log|
  {
    if log == [] then on else ClockAfter(ClockNext(on, log[0]), log[1..])
  }

  /** Every register access in `log` happens while the clock runs. */
  predicate WritesWhileClocked(on: bool, log: seq<Access>)
    decreases |log|
  {
    log == [] ||
    ((IsRegisterAccess(log[0]) ==> on) && WritesWhileClocked(ClockNext(on, log[0]), log[1..]))
  }

  lemma {:induction false} ClockedAppend(on: bool, a: seq<Access>, b: seq<Access>)
    ensures ClockAfter(on, a + b) == ClockAfter(ClockAfter(on, a), b)
    ensures WritesWhileClocked(on, a + b) <==>
            WritesWhileClocked(on, a) && WritesWhileClocked(ClockAfter(on, a), b)
    decreases |a|
  {
    if a == [] {
      assert a + b == b;
    } else {
      assert (a + b)[0] == a[0];
      assert (a + b)[1..] == a[1..] + b;
      ClockedAppend(ClockNext(on, a[0]), a[1..], b);
    }
  }

  // ---------------------------------------------------------------------
  // properties of admitted call sequences
  // ---------------------------------------------------------------------

  /**
   * Each admitted call touches the USART registers only while the clock
   * is running, and leaves the handle's clock flag where its own clock
   * accesses put it.
   */
  lemma StepWritesWhileClocked(m: Machine, op: Op)
    requires Consistent(m) && Step(m, op).Ok?
    ensures WritesWhileClocked(m.clockOn, Step(m, op).value.accesses)
    ensures ClockAfter(m.clockOn, Step(m, op).value.accesses) == Step(m, op).value.next.clockOn
  {
    var o := Step(m, op).value;
    if IsEnable(op) && m.state == Disabled {
      var tail := EnableAccesses(op)[1..];
      assert forall k :: 0 <= k < |tail| ==> !tail[k].EnableClock? && !tail[k].DisableClock?;
      NoGateChange(tail);
      assert o.accesses == [EnableClock] + tail;
      ClockedAppend(m.clockOn, [EnableClock], tail);
    }
  }

  /** A log without clock gating leaves the clock as it was and is clocked when it runs. */
  lemma {:induction false} NoGateChange(log: seq<Access>)
    requires forall k :: 0 <= k < |log| ==> !log[k].EnableClock? && !log[k].DisableClock?
    ensures ClockAfter(true, log) && WritesWhileClocked(true, log)
    decreases |log|
  {
    if log != [] {
      NoGateChange(log[1..]);
    }
  }

  /** Along any admitted sequence of calls, registers are touched only while clocked. */
  lemma {:induction false} RunWritesWhileClocked(m: Machine, ops: seq<Op>)
    requires Consistent(m) && Run(m, ops).Ok?
    ensures WritesWhileClocked(m.clockOn, Run(m, ops).value.accesses)
    ensures ClockAfter(m.clockOn, Run(m, ops).value.accesses) == Run(m, ops).value.next.clockOn
    decreases |ops|
  {
    if ops != [] {
      var first := Step(m, ops[0]).value;
      var rest := Run(first.next, ops[1..]).value;
      StepWritesWhileClocked(m, ops[0]);
      RunWritesWhileClocked(first.next, ops[1..]);
      ClockedAppend(m.clockOn, first.accesses, rest.accesses);
    }
  }

  /** A write to BRG or OSR, or a read-modify-write of CFG or CTL. */
  predicate WritesConfiguration(a: Access) {
    a.WriteBrg? || a.WriteOsr? || a.ModifyCfg? || a.ModifyCtl?
  }

  /**
   * Word and mode are fixed while enabled: only `disable` changes them.
   * Nor is BRG, OSR, CFG or CTL accessed for writing while enabled, so
   * their values are kept; only the interrupt enables change.
   */
  lemma {:induction false} EnabledStateIsFixed(m: Machine, ops: seq<Op>)
    requires m.state.Enabled? && Run(m, ops).Ok?
    requires Disable !in ops
    ensures Run(m, ops).value.next.state == m.state
    ensures var r := Run(m, ops).value.next.regs;
            r.brg == m.regs.brg && r.osr == m.regs.osr && r.cfg == m.regs.cfg && r.ctl == m.regs.ctl
    ensures forall a :: a in Run(m, ops).value.accesses ==> !WritesConfiguration(a)
    decreases |ops|
  {
    if ops != [] {
      assert ops[0] != Disable;
      assert Disable !in ops[1..] by {
        forall k | 0 <= k < |ops[1..]| ensures ops[1..][k] != Disable {
          assert ops[1..][k] == ops[k + 1];
        }
      }
      var first := Step(m, ops[0]).value;
      assert forall a :: a in first.accesses ==> !WritesConfiguration(a);
      EnabledStateIsFixed(first.next, ops[1..]);
    }
  }

  /** `op` acts on the enable bit of source `s`. */
  predicate Touches(op: Op, s: Source) {
    (op.EnableInterrupts? || op.DisableInterrupts?) && op.interrupts.Flagged(s)
  }

  /**
   * A source never flagged in any call keeps its enable bit: neither the
   * other interrupt calls nor the enable and disable transitions touch it.
   */
  lemma {:induction false} UnflaggedSourceKept(m: Machine, ops: seq<Op>, s: Source)
    requires Run(m, ops).Ok?
    requires forall k :: 0 <= k < |ops| ==> !Touches(ops[k], s)
    ensures s in Run(m, ops).value.next.regs.intEn <==> s in m.regs.intEn
    decreases |ops|
  {
    if ops != [] {
      var first := Step(m, ops[0]).value;
      assert !Touches(ops[0], s);
      if IsEnable(ops[0]) && m.state == Disabled {
        assert Same(m.regs, first.next.regs, IntEn);
      }
      assert s in first.next.regs.intEn <==> s in m.regs.intEn;
      assert forall k :: 0 <= k < |ops[1..]| ==> ops[1..][k] == ops[k + 1];
      UnflaggedSourceKept(first.next, ops[1..], s);
    }
  }

  /** Running `[op] + ops` is one step followed by the rest. */
  lemma RunCons(m: Machine, op: Op, ops: seq<Op>)
    requires Step(m, op).Ok? && Run(Step(m, op).value.next, ops).Ok?
    ensures Run(m, [op] + ops).Ok?
    ensures Run(m, [op] + ops).value.next == Run(Step(m, op).value.next, ops).value.next
  {
  }

  /** Enabling source `a` and then disabling only other sources leaves `a` enabled. */
  lemma EnableThenDisableOther(m: Machine, on: Interrupts, off: Interrupts, a: Source)
    requires m.live && m.state.Enabled?
    requires on.Flagged(a) && !off.Flagged(a)
    ensures Run(m, [EnableInterrupts(on), DisableInterrupts(off)]).Ok?
    ensures a in Run(m, [EnableInterrupts(on), DisableInterrupts(off)]).value.next.regs.intEn
  {
    var first := Step(m, EnableInterrupts(on)).value.next;
    var second := Step(first, DisableInterrupts(off)).value.next;
    assert a in second.regs.intEn;
    RunCons(first, DisableInterrupts(off), []);
    assert [DisableInterrupts(off)] + [] == [DisableInterrupts(off)];
    RunCons(m, EnableInterrupts(on), [DisableInterrupts(off)]);
    assert [EnableInterrupts(on)] + [DisableInterrupts(off)] == [EnableInterrupts(on), DisableInterrupts(off)];
  }

  /**
   * Enable, disable, enable again: the second enable's arguments alone
   * decide every field it writes, whatever the first one did; the fields
   * it leaves alone still hold what the first enable left there.
   */
  lemma ReEnableForgetsFirst(m: Machine, first: Op, second: Op)
    requires m.live && m.state == Disabled
    requires IsEnable(first) && IsEnable(second)
    ensures Run(m, [first, Disable, second]).Ok?
    ensures var again := Run(m, [first, Disable, second]).value.next;
            var direct := Step(m, second).value.next;
            && again.state == direct.state
            && again.clockOn && again.source == direct.source
            && (forall f :: f in Written(RoleOf(second)) ==> Same(again.regs, direct.regs, f))
            && AgreeOutside(again.regs, Step(m, first).value.next.regs, Written(RoleOf(second)))
  {
    var s1 := Step(m, first).value.next;
    StepEnable(m, first);
    var s2 := Step(s1, Disable).value.next;
    StepEnable(s2, second);
    StepEnable(m, second);
    var s3 := Step(s2, second).value.next;
    RunCons(s2, second, []);
    assert [second] + [] == [second];
    RunCons(s1, Disable, [second]);
    RunCons(m, first, [Disable, second]);
    assert [first] + ([Disable] + [second]) == [first, Disable, second];
    SecondEnableDecides(s1.regs, m.regs, second);
  }

  /** The handle after an admitted enable call. */
  lemma StepEnable(m: Machine, op: Op)
    requires m.live && m.state == Disabled && IsEnable(op)
    ensures Step(m, op).Ok?
    ensures Step(m, op).value.next
         == Machine(Enabled(op.settings.word, ModeOf(RoleOf(op))), EnabledRegs(m.regs, op),
                    true, Some(SourceOf(op)), true)
  {
  }

  /** An enable call writes the same values into its fields from any prior registers. */
  lemma SecondEnableDecides(r1: Regs, r2: Regs, op: Op)
    requires IsEnable(op)
    ensures forall f :: f in Written(RoleOf(op)) ==> Same(EnabledRegs(r1, op), EnabledRegs(r2, op), f)
  {
  }
}
