/** The lifecycle vocabulary of Works and Runs.

    `WorkState` (the gateway's) and `ExecutionPhase` (the kernel's) have the same
    fourteen names, so one datatype serves both. What differs is which moves each
    owner accepts, and how a state is written to the journal. */
module Lifecycle {

  datatype State =
    | Created | Planning | Ready | Running
    | WaitingTool | WaitingApproval | WaitingUser | Checkpointed
    | Verifying | Completed | Failed | Cancelled | Paused | Recoverable
  {
    predicate Terminal() {
      Completed? || Failed? || Cancelled?
    }

    predicate Waiting() {
      WaitingTool? || WaitingApproval? || WaitingUser?
    }

    /** The phases from which an ACP turn continues the existing Run. */
    predicate Resumable() {
      Ready? || Running? || Waiting() || Checkpointed? || Paused? || Recoverable?
    }
  }

  /** The moves the Work gateway accepts. Staying put is always accepted. */
  predicate GatewayMay(from: State, to: State) {
    from == to ||
    match from
    case Created => to.Planning? || to.Ready? || to.Cancelled?
    case Planning => to.Ready? || to.Failed? || to.Cancelled?
    case Ready => to.Running? || to.Waiting() || to.Cancelled?
    case Running => to.Waiting() || to.Checkpointed? || to.Verifying? || to.Terminal() || to.Paused? || to.Recoverable?
    case WaitingTool | WaitingApproval | WaitingUser =>
      to.Running? || to.Failed? || to.Cancelled? || to.Paused? || to.Recoverable? || to.Waiting()
    case Checkpointed => to.Running? || to.Failed? || to.Cancelled? || to.Paused? || to.Recoverable?
    case Verifying => to.Terminal() || to.Recoverable?
    case Paused => to.Running? || to.Failed? || to.Cancelled? || to.Recoverable?
    case Recoverable => to.Running? || to.Failed? || to.Cancelled?
    case Completed | Failed | Cancelled => false
  }

  /** The moves the execution kernel accepts. Staying put is refused. */
  predicate KernelMay(from: State, to: State) {
    match from
    case Created => to.Planning? || to.Ready? || to.Cancelled?
    case Planning => to.Ready? || to.Failed? || to.Cancelled?
    case Ready => to.Running? || to.Cancelled?
    case Running => to.Waiting() || to.Checkpointed? || to.Verifying? || to.Terminal() || to.Paused? || to.Recoverable?
    case WaitingTool | WaitingApproval | WaitingUser => to.Running? || to.Failed? || to.Cancelled? || to.Paused?
    case Checkpointed => to.Running? || to.Failed? || to.Cancelled?
    case Verifying => to.Completed? || to.Failed? || to.Recoverable?
    case Paused => to.Running? || to.Cancelled?
    case Recoverable => to.Running? || to.Failed? || to.Cancelled?
    case Completed | Failed | Cancelled => false
  }

  /** A turn continues exactly the Runs that run and those the kernel's table lets run. */
  lemma ResumableExactly(s: State)
    ensures s.Resumable() <==> s.Running? || KernelMay(s, Running)
  {
    match s { case _ => }
  }

  /** The kernel's moves are moves of the gateway too, except for these of the gateway alone. */
  lemma KernelWithinGateway(from: State, to: State)
    ensures KernelMay(from, to) ==> GatewayMay(from, to)
    ensures GatewayMay(from, to) && !KernelMay(from, to) <==>
            || to == from
            || (from.Ready? && to.Waiting())
            || (from.Waiting() && (to.Waiting() || to.Recoverable?))
            || (from.Checkpointed? && (to.Paused? || to.Recoverable?))
            || (from.Verifying? && to.Cancelled?)
            || (from.Paused? && (to.Failed? || to.Recoverable?))
  {
    match from { case _ => }
  }

  /** From where a state is entered, in the gateway's eyes. */
  lemma GatewayEnters(from: State, to: State)
    requires from != to
    ensures to.Created? ==> !GatewayMay(from, to)
    ensures to.Planning? ==> (GatewayMay(from, to) <==> from.Created?)
    ensures to.Ready? ==> (GatewayMay(from, to) <==> from.Created? || from.Planning?)
    ensures to.Running? ==> (GatewayMay(from, to) <==>
            from.Ready? || from.Waiting() || from.Checkpointed? || from.Paused? || from.Recoverable?)
    ensures to.Waiting() ==> (GatewayMay(from, to) <==> from.Ready? || from.Running? || from.Waiting())
    ensures to.Checkpointed? || to.Verifying? ==> (GatewayMay(from, to) <==> from.Running?)
    ensures to.Paused? ==> (GatewayMay(from, to) <==> from.Running? || from.Waiting() || from.Checkpointed?)
    ensures to.Recoverable? ==> (GatewayMay(from, to) <==>
            !from.Terminal() && !from.Created? && !from.Planning? && !from.Ready?)
    ensures to.Completed? ==> (GatewayMay(from, to) <==> from.Running? || from.Verifying?)
    ensures to.Failed? ==> (GatewayMay(from, to) <==> !from.Terminal() && !from.Created? && !from.Ready?)
    ensures to.Cancelled? ==> (GatewayMay(from, to) <==> !from.Terminal())
  {
    match to { case _ => }
  }

  /** The state the journal row of a move to `s` stands for. A queued row covers the
      three states before a start; a started row covers `Verifying` too. */
  function Journalled(s: State): State {
    match s
    case Created | Planning | Ready => Ready
    case Running | Verifying => Running
    case _ => s
  }

  /** The Work state the scheduler derives from a Run's phase. */
  function WorkStateForPhase(phase: State): State {
    match phase
    case Created | Planning | Ready => Ready
    case _ => phase
  }

  /** The phase `transition_acp_run` asks the kernel for, given the Work state it has
      just recorded. */
  function PhaseForWorkState(s: State): State {
    match s
    case Created | Planning | Ready | Running => Running
    case _ => s
  }
}
