/** The two transition tables and how they are paired. */
module StateMachine {
  import opened Wrappers
  import opened Lifecycle

  datatype VirtualTradeStatus =
    | WaitingEntry | TradeEntered | TradeTp1Reached | TradeStopped | TradeStoppedAtBreakeven
    | TradeTp2Completed | TradeExpired | TradeInvalidated | TradeAmbiguous | TradeCoverageMissed

  function SignalTransitions(current: SignalStatus): set<SignalStatus> {
    match current
    case Preparing => {Active, CoverageFailed, Expired}
    case Active => {Entered, Expired, Invalidated, Ambiguous, CoverageFailed}
    case Entered => {Stopped, Tp1Reached, Ambiguous}
    case Tp1Reached => {StoppedAtBreakeven, Tp2Completed, Ambiguous}
    case _ => {}
  }

  function VirtualTradeTransitions(current: VirtualTradeStatus): set<VirtualTradeStatus> {
    match current
    case WaitingEntry => {TradeEntered, TradeExpired, TradeInvalidated, TradeAmbiguous, TradeCoverageMissed}
    case TradeEntered => {TradeStopped, TradeTp1Reached, TradeAmbiguous}
    case TradeTp1Reached => {TradeStoppedAtBreakeven, TradeTp2Completed, TradeAmbiguous}
    case _ => {}
  }

  /** The virtual trade status a signal status moves to; none while the signal only waits. */
  function VirtualTradeTarget(status: SignalStatus): Option<VirtualTradeStatus> {
    match status
    case Preparing | Active => None
    case Suppressed => Some(TradeCoverageMissed)
    case Expired => Some(TradeExpired)
    case Invalidated => Some(TradeInvalidated)
    case Entered => Some(TradeEntered)
    case Stopped => Some(TradeStopped)
    case Tp1Reached => Some(TradeTp1Reached)
    case StoppedAtBreakeven => Some(TradeStoppedAtBreakeven)
    case Tp2Completed => Some(TradeTp2Completed)
    case Ambiguous => Some(TradeAmbiguous)
    case CoverageFailed => Some(TradeCoverageMissed)
  }

  predicate Terminal(status: SignalStatus) {
    status in {Expired, Invalidated, Stopped, StoppedAtBreakeven, Tp2Completed, Ambiguous, CoverageFailed}
  }

  predicate ActiveStatus(status: SignalStatus) {
    status in {Preparing, Active, Entered, Tp1Reached}
  }

  /** The status a virtual trade has beside a published signal. */
  function Paired(status: SignalStatus): VirtualTradeStatus {
    VirtualTradeTarget(status).GetOr(WaitingEntry)
  }

  /** How many status changes a signal may still see. */
  function Rank(status: SignalStatus): nat {
    match status
    case Preparing => 4
    case Active => 3
    case Entered => 2
    case Tp1Reached => 1
    case _ => 0
  }

  /**
   * Every step of the signal table lowers the rank, ends outside `Suppressed`, and is mirrored by the trade table;
   * exactly the terminal statuses and `Suppressed` have no step.
   */
  lemma TablesAgree(current: SignalStatus, target: SignalStatus)
    ensures SignalTransitions(current) == {} <==> Terminal(current) || current == Suppressed
    ensures target in SignalTransitions(current) ==>
              && Rank(target) < Rank(current) && target != Suppressed
              && (VirtualTradeTarget(target) == None ==> Paired(target) == Paired(current))
              && (VirtualTradeTarget(target) != None ==> Paired(target) in VirtualTradeTransitions(Paired(current)))
  {
  }
}
