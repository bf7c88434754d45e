/**
 * Abstract view of one USART register block: the baud-rate divisor (BRG),
 * the oversample count (OSR), the configuration register (CFG), the control
 * register (CTL) and the set of enabled interrupt sources.
 *
 * Only the fields the driver writes are named; every other bit of CFG and
 * CTL is kept as one opaque `rest` value, so that "other fields are
 * preserved" can be stated.
 */
module UsartRegisters {
  import opened UsartTypes

  /** CFG.SYNCEN */
  datatype SyncEn = AsynchronousMode | SynchronousMode
  /** CFG.SYNCMST */
  datatype SyncMst = Slave | Master
  /** CFG.LOOP */
  datatype LoopMode = Normal | Loopback
  /** CTL.TXBRKEN: `normal` or continuous break */
  datatype TxBrkEn = NoBreak | ContinuousBreak
  /** CTL.TXDIS: whether the transmitter is enabled */
  datatype TxDis = TxEnabled | TxDisabled
  /** CTL.CC: clock only while receiving a character, or continuously */
  datatype ClockMode = ClockOnCharacter | ContinuousClock

  datatype Cfg = Cfg(
    enable: bool,
    syncen: SyncEn,
    syncmst: SyncMst,
    ctsen: bool,
    loopMode: LoopMode,
    autoaddr: bool,
    format: LineFormat,
    rest: int)

  datatype Ctl = Ctl(
    txbrken: TxBrkEn,
    addrdet: bool,
    txdis: TxDis,
    cc: ClockMode,
    autobaud: bool,
    rest: int)

  datatype Regs = Regs(brg: nat, osr: nat, cfg: Cfg, ctl: Ctl, intEn: set<Source>)

  /** The register fields named by the model. */
  datatype Field =
    | Brg | Osr
    | CfgEnable | CfgSyncen | CfgSyncmst | CfgCtsen | CfgLoop | CfgAutoaddr | CfgFormat | CfgRest
    | CtlTxbrken | CtlAddrdet | CtlTxdis | CtlCc | CtlAutobaud | CtlRest
    | IntEn

  /** Registers `a` and `b` hold the same value in field `f`. */
  predicate Same(a: Regs, b: Regs, f: Field) {
    match f
    case Brg => a.brg == b.brg
    case Osr => a.osr == b.osr
    case CfgEnable => a.cfg.enable == b.cfg.enable
    case CfgSyncen => a.cfg.syncen == b.cfg.syncen
    case CfgSyncmst => a.cfg.syncmst == b.cfg.syncmst
    case CfgCtsen => a.cfg.ctsen == b.cfg.ctsen
    case CfgLoop => a.cfg.loopMode == b.cfg.loopMode
    case CfgAutoaddr => a.cfg.autoaddr == b.cfg.autoaddr
    case CfgFormat => a.cfg.format == b.cfg.format
    case CfgRest => a.cfg.rest == b.cfg.rest
    case CtlTxbrken => a.ctl.txbrken == b.ctl.txbrken
    case CtlAddrdet => a.ctl.addrdet == b.ctl.addrdet
    case CtlTxdis => a.ctl.txdis == b.ctl.txdis
    case CtlCc => a.ctl.cc == b.ctl.cc
    case CtlAutobaud => a.ctl.autobaud == b.ctl.autobaud
    case CtlRest => a.ctl.rest == b.ctl.rest
    case IntEn => a.intEn == b.intEn
  }

  /** `a` and `b` differ at most in the fields of `written`. */
  predicate AgreeOutside(a: Regs, b: Regs, written: set<Field>) {
    forall f :: f !in written ==> Same(a, b, f)
  }
}
