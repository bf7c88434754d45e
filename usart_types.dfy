/**
 * Value types the USART driver is parameterised by: the data word width,
 * the mode and configuration-state tags, the baud-rate clock descriptor,
 * the line-format settings and the interrupt-source selection.
 *
 * In the driver these are mostly type parameters (`W: Word`, `Mode`,
 * `State`, `CLOCK: ClockSource`); here they are ordinary values.
 */
module UsartTypes {

  /** The transfer unit: `u8` (7- and 8-bit words) or `u16` (9-bit words). */
  datatype Word = U8 | U16

  /** The mode tag of `Enabled<W, Mode>`: sync master and sync slave share `SyncMode`. */
  datatype ModeTag = AsyncMode | SyncMode

  /** The configuration-state tag of `USART<I, State>`. */
  datatype ConfigState = Disabled | Enabled(word: Word, mode: ModeTag)

  /** Identity of a clock source type `C: ClockSource`. */
  type ClockSourceId = nat

  /**
   * A derived baud-rate clock `Clock<C, Mode>`: which source it is derived
   * from, which mode it was built for, and the two register values.
   */
  datatype Clock = Clock(source: ClockSourceId, mode: ModeTag, brgval: nat, osrval: nat)

  /** The CFG line-format bits that `Settings::apply` writes, kept opaque. */
  datatype LineFormat = LineFormat(code: int)

  /** `Settings<W>`: the word width and the line format it encodes. */
  datatype Settings = Settings(word: Word, format: LineFormat)

  /** Interrupt sources of one USART instance. */
  datatype Source =
    | RxRdy | TxRdy | TxIdle | DeltaCts | TxDisInt | Overrun
    | DeltaRxBrk | Start | FramErr | ParityErr | RxNoise | AbErr

  /** `Interrupts`: one flag per source; only sources flagged `true` are acted on. */
  datatype Interrupts = Interrupts(
    rxrdy: bool, txrdy: bool, txidle: bool, deltacts: bool, txdis: bool, overrun: bool,
    deltarxbrk: bool, start: bool, framerr: bool, parityerr: bool, rxnoise: bool, aberr: bool)
  {
    /** Whether source `s` is flagged `true`. */
    predicate Flagged(s: Source) {
      match s
      case RxRdy => rxrdy
      case TxRdy => txrdy
      case TxIdle => txidle
      case DeltaCts => deltacts
      case TxDisInt => txdis
      case Overrun => overrun
      case DeltaRxBrk => deltarxbrk
      case Start => start
      case FramErr => framerr
      case ParityErr => parityerr
      case RxNoise => rxnoise
      case AbErr => aberr
    }

    /** The set of sources flagged `true`. */
    function FlaggedSet(): (r: set<Source>)
      ensures forall s :: s in r <==> Flagged(s)
    {
      AllSourcesListed();
      set s | s in ALL_SOURCES && Flagged(s)
    }
  }

  /** Every interrupt source of a USART instance. */
  const ALL_SOURCES: set<Source> := {RxRdy, TxRdy, TxIdle, DeltaCts, TxDisInt, Overrun,
                                     DeltaRxBrk, Start, FramErr, ParityErr, RxNoise, AbErr}

  lemma AllSourcesListed()
    ensures forall s :: s in ALL_SOURCES
  {
    forall s ensures s in ALL_SOURCES {
      match s
      case RxRdy => case TxRdy => case TxIdle => case DeltaCts =>
      case TxDisInt => case Overrun => case DeltaRxBrk => case Start =>
      case FramErr => case ParityErr => case RxNoise => case AbErr =>
    }
  }
}
