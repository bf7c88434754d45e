# USART configuration state machine (lpc8xx-hal), modelled in Dafny

This project models the configuration core of the LPC8xx USART driver,
`src/usart/peripheral.rs`. It covers the handle `USART<I, State>`, which
owns one USART register block, and how it moves between `Disabled` and
`Enabled<W, Mode>`:

- `enable_async`, `enable_sync_as_master` and `enable_sync_as_slave` run
  the shared `configure` step: the clock is ungated, the clock source is
  selected, and CTL is read-modify-written. Then `enable_async` writes BRG
  and OSR, `enable_sync_as_master` writes BRG only, and
  `enable_sync_as_slave` writes neither. Each ends with a single
  read-modify-write of CFG: the mode bits, then `apply_general_config`,
  then `settings.apply`.
- `disable` only gates the clock off.
- `enable_interrupts` and `disable_interrupts` change only the sources
  flagged `true`.
- `free` gives up the raw register block.

The files:

- `usart_types.dfy` (`UsartTypes`): the values the driver is parameterised
  by. These are the word width, the mode tag (`AsyncMode`, `SyncMode`; sync
  master and sync slave both give `SyncMode`), the configuration state, the
  baud-rate `Clock`, `Settings` and `Interrupts`.
- `usart_registers.dfy` (`UsartRegisters`): an abstract register block.
  - BRG and OSR.
  - The CFG fields the driver writes: ENABLE, SYNCEN, SYNCMST, CTSEN,
    LOOP, AUTOADDR, and the format bits that `Settings` writes.
  - The CTL fields `configure` writes: TXBRKEN, ADDRDET, TXDIS, CC,
    AUTOBAUD.
  - The set of enabled interrupt sources.
  - One opaque `rest` value per register for all other bits.
  - A `Field` enumeration, with `Same` and `AgreeOutside`, to say which
    fields an operation may change.
- `access_log.dfy` (`AccessLog`): the hardware accesses (`Access`) and a
  ghost `Trace` that records them in program order.
- `syscon.dfy` (`Syscon`): the clock controller handle, with per-instance
  clock gates and clock-source selection. Each call appends its access to
  the trace it is given. The `Usart` methods pass the trace of their own
  register block.
- `usart_protocol.dfy` (`UsartProtocol`): the register-level effect of each
  transition as pure functions, plus a step semantics for a handle.
  - `Step` says which calls the typestate admits in which state, what each
    admitted call does, and the hardware accesses it makes, in order.
  - `Run` applies a sequence of calls.
  - The lemmas cover any sequence of admitted calls.
- `usart_peripheral.dfy` (`UsartPeripheral`): the imperative model.
  - A `RegisterBlock` class with write and modify methods. The block owns
    the instance's `Trace`, and every write or modify appends its own access
    to it. The block also records, as a ghost field `clocks`, the one clock
    controller handle that gates it. Every write or modify requires the
    block's clock to be ungated in that handle, so the block cannot be
    written through the logged methods while its clock is gated.
  - A `Usart` class with a `state` field and a ghost `live` flag (cleared by
    `free`, which consumes the handle).
  - Each transition method updates the registers and the clock controller
    step by step, in the source's order. The order is proved from the trace
    that the callees write, and each register access is proved to happen
    with the block's clock on. A body that writes before `configure`
    ungates the clock, or that writes in another order, fails to verify (see
    "Left out" for what a body could still do by assigning fields directly).
    The transition methods take the clock controller handle as in the
    source, and require it to be the block's own controller.
  - The class invariant `Valid()`: a live handle is `Consistent` with its
    register block and the clock entries in the block's own controller.
    Each transition and interrupt method requires and keeps it, and
    `USART::new` establishes it.
  - Each method is proved to do exactly what `UsartProtocol.Step` says. So
    the `Run` lemmas also hold for any sequence of method calls on one
    handle, provided nothing else writes its register block or gates its
    clock (see "Left out").
- `wrappers.dfy` (`Wrappers`): `Option` and `Result`.

Typestate as runtime state: Rust rejects a wrong-state call at compile time.
In this model the state is a field. Each method has a `requires` on that
field, and `Step` returns a distinct error (`NotDisabled`, `NotEnabled`,
`WrongClockMode`, `Consumed`) for a call the compiler would reject. This
relaxation is deliberate. A clock built for the wrong mode
(`Clock<C, SyncMode>` passed to `enable_async`) is rejected the same way.

A later enable does not clear fields it does not write. Those fields keep
what an earlier enable put there. Examples: SYNCMST after a sync-master
enable followed by an async enable, or OSR after an async enable followed
by a sync-master enable. `ReEnableForgetsFirst` states this exactly. Every
field the second enable writes depends only on that enable's arguments.
Every other field equals its value after the first enable.

## Model

| member | source | states |
|---|---|---|
| `UsartProtocol.ConfigureCtl` | src/usart/peripheral.rs:258-264 | CTL afterwards has TXBRKEN normal, ADDRDET disabled, TXDIS "enabled" (transmitter on), CC continuous clock, AUTOBAUD disabled; all other CTL bits preserved |
| `UsartProtocol.SetModeBits` | src/usart/peripheral.rs:180-186 | mode bits per transition (async: SYNCEN asynchronous, SYNCMST untouched; master: synchronous + master; slave: synchronous + slave, lines 122, 181-182, 237-238); nothing else in CFG changes |
| `UsartProtocol.ApplyGeneralConfig` | src/usart/peripheral.rs:267-281 | CFG afterwards has ENABLE set, CTSEN clear, LOOP normal, AUTOADDR set; every other CFG field preserved |
| `UsartProtocol.ApplySettings` | src/usart/peripheral.rs:124 | the settings' format bits are written, nothing else |
| `UsartProtocol.CommitCfg` | src/usart/peripheral.rs:121-126 | the single CFG modify: afterwards the mode bits, the general config and the settings' format all hold, untouched bits keep their value, and async keeps SYNCMST |
| `UsartProtocol.AsyncRegs` | src/usart/peripheral.rs:109-126 | `enable_async`: BRG = clock.brgval, OSR = clock.osrval, CFG/CTL committed for async mode, and only the fields in `Written(AsyncRole)` differ from before |
| `UsartProtocol.SyncMasterRegs` | src/usart/peripheral.rs:171-186 | `enable_sync_as_master`: BRG = clock.brgval, OSR unchanged, CFG/CTL committed for sync master, only `Written(SyncMaster)` fields differ |
| `UsartProtocol.SyncSlaveRegs` | src/usart/peripheral.rs:231-242 | `enable_sync_as_slave`: BRG and OSR unchanged, CFG/CTL committed for sync slave, only `Written(SyncSlave)` fields differ |
| `UsartProtocol.WithEnabled` | src/usart/peripheral.rs:343-346 | every source flagged `true` is enabled afterwards; a source flagged `false` is enabled afterwards iff it was before |
| `UsartProtocol.WithDisabled` | src/usart/peripheral.rs:403-406 | every source flagged `true` is disabled afterwards; a source flagged `false` is enabled afterwards iff it was before |
| `UsartTypes.Interrupts.FlaggedSet` | src/usart/peripheral.rs:392-397 | the set of sources an `Interrupts` value flags `true`, exactly |
| `UsartProtocol.Step` | src/usart/peripheral.rs:57-60 | a call succeeds iff the typestate admits it (enables only from `Disabled` with a clock of the matching mode; `disable` and the interrupt calls only from `Enabled`; `free` from either; nothing after `free`, impl blocks at 57-60, 284-288, 464-467); an enable yields `Enabled(settings.word, AsyncMode)` or `Enabled(settings.word, SyncMode)`; `disable` yields `Disabled` with registers unchanged and the clock gated; admitted calls keep the handle consistent |
| `UsartProtocol.Run` | src/usart/peripheral.rs:284-308 | along any admitted sequence of calls an enabled handle has its clock on, a clock source selected and CFG/CTL configured for its mode |
| `UsartProtocol.StepWritesWhileClocked` | src/usart/peripheral.rs:251-265 | each admitted call touches USART registers only while this instance's clock is ungated (configure ungates it first), and the handle's clock flag is exactly where its clock accesses leave it |
| `UsartProtocol.RunWritesWhileClocked` | src/usart/peripheral.rs:251-308 | the same over any admitted sequence of calls |
| `UsartProtocol.EnabledStateIsFixed` | src/usart/peripheral.rs:118-126 | while enabled, over any admitted call sequence without `disable`: word and mode stay fixed, no access writes or modifies BRG, OSR, CFG or CTL, and those four keep their values (the typestate keeps CFG from being written while enabled, lines 118-119, 177-178, 233-234) |
| `UsartProtocol.UnflaggedSourceKept` | src/usart/peripheral.rs:403-406 | a source that no interrupt call flags keeps its enable bit over any admitted call sequence, enables and disables included |
| `UsartProtocol.EnableThenDisableOther` | src/usart/peripheral.rs:399-401 | `enable_interrupts` (399-401) with source A, then `disable_interrupts` (459-461) with a mask without A, succeeds and leaves A enabled |
| `UsartProtocol.SecondEnableDecides` | src/usart/peripheral.rs:109-126 | an enable writes the same value into every field it writes, whatever the registers held before |
| `UsartProtocol.ReEnableForgetsFirst` | src/usart/peripheral.rs:300-308 | enable, disable, enable again succeeds; the result has the second enable's state and source, agrees with a direct enable on every field the second enable writes, and agrees with the state after the first enable on every other field |
| `Syscon.Handle.EnableClock` | src/usart/peripheral.rs:255 | this instance's clock is ungated; other instances and source selections unchanged; appends `EnableClock` to the given trace |
| `Syscon.Handle.SelectClock` | src/usart/peripheral.rs:256 | this instance's clock source is set; clock gates unchanged; appends `SelectClock(source)` to the given trace |
| `Syscon.Handle.DisableClock` | src/usart/peripheral.rs:301 | this instance's clock is gated off; nothing else changes; appends `DisableClock` to the given trace |
| `UsartPeripheral.RegisterBlock.WriteBrg` | src/usart/peripheral.rs:111-113 | BRG overwritten, all other registers unchanged; appends `WriteBrg(brgval)` to the trace; requires the block's clock to be ungated in its own clock controller `clocks` |
| `UsartPeripheral.RegisterBlock.WriteOsr` | src/usart/peripheral.rs:114-116 | OSR overwritten, all other registers unchanged; appends `WriteOsr(osrval)` to the trace; requires the block's clock to be ungated in its own clock controller `clocks` |
| `UsartPeripheral.RegisterBlock.ModifyCfg` | src/usart/peripheral.rs:121 | CFG := f(old CFG) in one step, all other registers unchanged; appends `ModifyCfg` to the trace; requires the block's clock to be ungated in its own clock controller `clocks` |
| `UsartPeripheral.RegisterBlock.ModifyCtl` | src/usart/peripheral.rs:258 | CTL := f(old CTL) in one step, all other registers unchanged; appends `ModifyCtl` to the trace; requires the block's clock to be ungated in its own clock controller `clocks` |
| `UsartPeripheral.RegisterBlock.SetInterruptEnables` | src/usart/peripheral.rs:400 | the given sources are added to the enable set, nothing else changes; appends the access to the trace; requires the block's clock to be ungated in its own clock controller `clocks` |
| `UsartPeripheral.RegisterBlock.ClearInterruptEnables` | src/usart/peripheral.rs:460 | the given sources are removed from the enable set, nothing else changes; appends the access to the trace; requires the block's clock to be ungated in its own clock controller `clocks` |
| `UsartPeripheral.Usart.constructor` | src/usart/peripheral.rs:61-68 | `USART::new`: a live `Disabled` handle owning the given block, and `Valid` holds for every clock controller handle |
| `UsartPeripheral.Usart.Configure` | src/usart/peripheral.rs:251-265 | clock ungated, then source selected, then CTL := `ConfigureCtl(CTL)`; the trace the callees write shows exactly these three accesses in that order; no other register touched; `syscon` must be the block's own clock controller |
| `UsartPeripheral.Usart.EnableAsync` | src/usart/peripheral.rs:97-133 | from `Disabled` with an async clock: state `Enabled(word, AsyncMode)`, registers = `AsyncRegs(old)`, clock on and source selected, accesses = configure, BRG, OSR, one CFG modify; equals `Step`; requires and keeps `Valid()`; `syscon` must be the block's own clock controller |
| `UsartPeripheral.Usart.EnableSyncAsMaster` | src/usart/peripheral.rs:158-193 | from `Disabled` with a sync clock: state `Enabled(word, SyncMode)`, registers = `SyncMasterRegs(old)`, accesses = configure, BRG, one CFG modify; equals `Step`; requires and keeps `Valid()`; `syscon` must be the block's own clock controller |
| `UsartPeripheral.Usart.EnableSyncAsSlave` | src/usart/peripheral.rs:218-249 | from `Disabled`: state `Enabled(word, SyncMode)`, registers = `SyncSlaveRegs(old)`, accesses = configure, one CFG modify; equals `Step`; requires and keeps `Valid()`; `syscon` must be the block's own clock controller |
| `UsartPeripheral.Usart.Disable` | src/usart/peripheral.rs:300-308 | from `Enabled`: state `Disabled`, this instance's clock gated off, registers unchanged, the only access is the clock gate; equals `Step`; requires and keeps `Valid()`; `syscon` must be the block's own clock controller |
| `UsartPeripheral.Usart.EnableInterrupts` | src/usart/peripheral.rs:399-401 | from `Enabled`: enable set := `WithEnabled(old, mask)`, every other register unchanged; equals `Step`; requires and keeps `Valid()` |
| `UsartPeripheral.Usart.DisableInterrupts` | src/usart/peripheral.rs:459-461 | from `Enabled`: enable set := `WithDisabled(old, mask)`, every other register unchanged; equals `Step`; requires and keeps `Valid()` |
| `UsartPeripheral.Usart.Free` | src/usart/peripheral.rs:480-482 | in any state: returns the owned register block and consumes the handle; equals `Step`; `Valid` then holds trivially |

## Left out

- `is_flag_set`: `Flag::is_set` is in `src/usart/flags.rs`, which is not part of this model. Which flags are cleared when read is not visible here.
- `enable_in_nvic`, `disable_in_nvic`, `clear_nvic_pending`: these call the Cortex-M interrupt controller. That is a foreign call, and no USART state is involved.
- `read`, `write`, `flush`, `write_str` and the blocking-write default: these only delegate to `rx.rs`, `tx.rs` and embedded-hal, which are not part of this model.
- Rx/Tx reconstruction on every transition: these are zero-sized values with no state.
- Pin-assignment tokens (`swm::Function<_, Assigned<_>>`): these are a guarantee of the pin-matrix module's types. They are not runtime behaviour, so the methods do not take them.
- `Settings::apply`: `src/usart/settings.rs` is not part of this model. The model assumes it writes the CFG line-format bits and nothing else, and keeps those bits opaque (`LineFormat`). The same applies to the word width `W`: the model records it in the state tag but does not relate it to the format bits.
- `Clock::new`, `new_with_baudrate`, `ClockSource::select`: `src/usart/clock.rs` is not part of this model. `brgval` and `osrval` are given naturals, and their register widths are not modelled. `select` records the chosen source for this instance.
- Interrupt sources: `src/usart/flags.rs` is not part of this model. The twelve sources follow the USART interrupt-enable bits of the LPC8xx user manual cited in `src/usart/mod.rs`, and `Interrupts::enable`/`disable` are modelled as write-one-to-set and write-one-to-clear of those bits.
- Ownership: Rust moves the handle on every transition. The model updates one object in place instead, so aliasing of handles is not captured. Only `free` ends the handle (the `live` flag).
- Exclusive access to the register block and the clock gate: in Rust the block is a private field of the handle and gating needs a reference to it. The model does not stop other code from writing the block or gating this instance's clock between method calls. Such a change can break `Valid`, and then only `free` can still be called, as in Rust; the `Run` lemmas describe the class only while nothing else touches the block or the gate.
- One clock controller: Rust has a single `syscon::Handle`. The model allows several `Handle` objects, but each register block is tied to one of them (`clocks`), and every method that gates, selects or writes requires that one.
- Field privacy: Dafny cannot make the `RegisterBlock` fields private, so a `Usart` method body could assign `usart.brg` or `usart.cfg` directly. Such a write bypasses both the trace and the clock precondition. The model writes the registers only through the logged methods.
- The register contents after reset, and the hardware effects of a gated clock on the register values: the model keeps register values across `disable`.
