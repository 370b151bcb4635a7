/** The transitions an ACP turn records after the prompt, and exactly when they part the
    two owners of a Run's state. */
module AcpTransition {
  import opened Basics
  import opened Lifecycle
  import opened WorkGatewayModel
  import opened ExecutionKernelModel
  import opened AcpAdmission
  import opened AcpTurn

  /** Gateway first, kernel only if the gateway recorded the move. */
  function Handoff(o: Owners, work: string, run: string, to: State): (Owners, bool) {
    var (g, recorded) := o.g.RecordTransition(work, run, to);
    if !recorded then (Owners(g, o.k), false)
    else var (k, moved) := o.k.Transition(run, PhaseForWorkState(to)); (Owners(g, k), moved)
  }

  method TransitionAcpRun(gateway: WorkGateway, kernel: ExecutionKernel, work: string, run: string, to: State)
    returns (ok: bool)
    modifies gateway, kernel
    ensures (Owners(gateway.Now(), kernel.Now()), ok)
            == Handoff(old(Owners(gateway.Now(), kernel.Now())), work, run, to)
  {
    ok := gateway.RecordTransition(work, run, to);
    if ok {
      ok := kernel.Transition(run, PhaseForWorkState(to));
    }
  }

  // ---------------------------------------------------------------- where the two tables part

  /** Starting from agreement on a Run in phase `phase`, the moves to `to` after which the
      gateway says something the kernel does not. */
  predicate Parts(phase: State, to: State) {
    match phase
    case Created | Planning => to.Running? || to.Waiting()
    case Ready => to.Ready? || to.Waiting()
    case WaitingTool | WaitingApproval | WaitingUser => to.Recoverable? || (to.Waiting() && to != phase)
    case Checkpointed => to.Paused? || to.Recoverable?
    case Verifying => to.Cancelled?
    case Paused => to.Failed? || to.Recoverable?
    case Running | Recoverable | Completed | Failed | Cancelled => false
  }

  /** Only the kernel still holds the Run in WaitingApproval. */
  predicate KernelHolds(k: Kernel, run: string, to: State)
    requires run in k.runs
  {
    k.runs[run].phase.WaitingApproval? && !to.WaitingApproval? && k.runs[run].pendingApproval
  }

  /** The state the gateway moves from is the Work state of the kernel's phase, so `Parts`
      is the difference of the two tables along the mapping both sides use. */
  lemma PartsIsTableDifference(phase: State, to: State)
    ensures Parts(phase, to) <==>
            var from := WorkStateForPhase(phase);
            && GatewayMay(from, to) && GatewayMay(from, Journalled(to))
            && WorkStateForPhase(if KernelMay(phase, PhaseForWorkState(to)) then PhaseForWorkState(to) else phase) != to
  {
    match phase
    case Created => match to { case _ => }
    case Planning => match to { case _ => }
    case Ready => match to { case _ => }
    case _ =>
  }

  /** A recorded move keeps the owners in agreement except for the moves of `Parts` and for
      an approval only the kernel still waits for. */
  lemma HandoffAgreement(o: Owners, work: string, run: string, to: State)
    requires Agree(o.g, o.k, work) && Get(o.g.currentRun, work) == Some(run) && work in o.g.works
    requires NoWriteFailed(o.g, Handoff(o, work, run, to).0.g)
    ensures var t := Handoff(o, work, run, to).0;
            Agree(t.g, t.k, work) <==>
            !(o.g.MayMove(work, run, to) && (Parts(o.k.runs[run].phase, to) || KernelHolds(o.k, run, to)))
  {
    var phase := o.k.runs[run].phase;
    var (t, ok) := Handoff(o, work, run, to);
    var (g, recorded) := o.g.RecordTransition(work, run, to);
    PartsIsTableDifference(phase, to);
    if o.g.MayMove(work, run, to) && o.g.MayMove(work, run, Journalled(to)) {
      assert recorded by {
        assert o.g.disk(o.g.writes) || g.writes == o.g.writes + 1;
      }
      assert g.runStates[(work, run)] == to;
    } else if o.g.MayMove(work, run, to) {
      assert !recorded;
      ReplayedMove(o.g, work, run, to);
    }
  }

  /** What the journal check refuses although the table allows it: `Verifying` again, which
      is journalled as a start. */
  lemma ReplayedMove(g: Gateway, work: string, run: string, to: State)
    requires (work, run) in g.runStates && g.MayMove(work, run, to) && !g.MayMove(work, run, Journalled(to))
    ensures g.runStates[(work, run)] == to
  {
  }

  // ---------------------------------------------------------------- the end of a turn

  /** How the prompt came back: cancelled, failed, or with a stop reason and perhaps
      tickets it asked a human about. */
  datatype PromptEnd = PromptCancelled | PromptFailed | Stopped(cancelled: bool, ticketsPending: bool)

  /** Where the Run of the turn is meant to end. */
  function FinalState(end: PromptEnd): State {
    match end
    case PromptCancelled => Cancelled
    case PromptFailed => Failed
    case Stopped(cancelled, pending) => if cancelled then Cancelled else if pending then WaitingApproval else Completed
  }

  /** A turn that simply stopped is verified and then completed, two moves; every other end
      is one move. The first move that fails is the last. */
  function Ended(o: Owners, work: string, run: string, end: PromptEnd): (Owners, bool) {
    if end == Stopped(false, false) then
      var (t, ok) := Handoff(o, work, run, Verifying);
      if ok then Handoff(t, work, run, Completed) else (t, false)
    else Handoff(o, work, run, FinalState(end))
  }

  /** What each outcome leads to: a prompt that failed or was cancelled leaves its Run failed or
      cancelled, one that stopped leaves it completed, or waiting if tickets are pending; only
      then can the Work go on. */
  predicate EndedAs(o: Owners, work: string, run: string, end: PromptEnd) {
    && run in o.k.runs
    && (o.k.runs[run].phase.Failed? <==> end.PromptFailed?)
    && (o.k.runs[run].phase.Cancelled? <==> end.PromptCancelled? || (end.Stopped? && end.cancelled))
    && (o.k.runs[run].phase.Completed? <==> end.Stopped? && !end.cancelled && !end.ticketsPending)
    && (o.k.runs[run].phase.WaitingApproval? <==> end.Stopped? && !end.cancelled && end.ticketsPending)
    && (Finished(o.g, work) <==> !(end.Stopped? && !end.cancelled && end.ticketsPending))
  }

  method EndTurn(gateway: WorkGateway, kernel: ExecutionKernel, identity: TurnIdentity, end: PromptEnd)
    returns (ok: bool)
    modifies gateway, kernel
    ensures (Owners(gateway.Now(), kernel.Now()), ok)
            == Ended(old(Owners(gateway.Now(), kernel.Now())), identity.owner.work, identity.run, end)
    ensures var o := old(Owners(gateway.Now(), kernel.Now())); var t := Owners(gateway.Now(), kernel.Now());
            PromptRuns(o, identity.owner.work, identity.run) ==>
              && (NoWriteFailed(o.g, t.g) ==> ok)
              && (ok ==> Agree(t.g, t.k, identity.owner.work) && EndedAs(t, identity.owner.work, identity.run, end))
  {
    ghost var o := Owners(gateway.Now(), kernel.Now());
    var work, run := identity.owner.work, identity.run;
    if end == Stopped(false, false) {
      ok := TransitionAcpRun(gateway, kernel, work, run, Verifying);
      ghost var t := Owners(gateway.Now(), kernel.Now());
      if PromptRuns(o, work, run) {
        FromRunning(o, work, run, Verifying);
      }
      if ok {
        ok := TransitionAcpRun(gateway, kernel, work, run, Completed);
        if PromptRuns(o, work, run) {
          VerifiedCompletes(t, work, run);
        }
      }
    } else {
      if PromptRuns(o, work, run) {
        FromRunning(o, work, run, FinalState(end));
      }
      ok := TransitionAcpRun(gateway, kernel, work, run, FinalState(end));
    }
  }

  /** The state a successful turn prepared: the Run is the Work's current one, both owners
      say it is running. */
  predicate PromptRuns(o: Owners, work: string, run: string) {
    work in o.g.works && Get(o.g.currentRun, work) == Some(run) && Agree(o.g, o.k, work)
    && run in o.k.runs && o.k.runs[run].phase.Running?
  }

  /** From Running both owners accept every state a turn can end in. */
  lemma FromRunning(o: Owners, work: string, run: string, to: State)
    requires PromptRuns(o, work, run) && (to.Terminal() || to.Verifying? || to.WaitingApproval?)
    ensures var (t, ok) := Handoff(o, work, run, to);
            if ok then Agree(t.g, t.k, work) && Get(t.g.currentRun, work) == Some(run) && work in t.g.works
              && t.k.runs[run].phase == to
            else !NoWriteFailed(o.g, t.g)
    ensures var (t, ok) := Handoff(o, work, run, to); t.g.disk == o.g.disk && o.g.writes <= t.g.writes
  {
    var (t, ok) := Handoff(o, work, run, to);
    if !ok {
      assert t.g.writes == o.g.writes + 1 && !o.g.disk(o.g.writes);
    }
  }

  lemma VerifiedCompletes(o: Owners, work: string, run: string)
    requires Agree(o.g, o.k, work) && Get(o.g.currentRun, work) == Some(run) && work in o.g.works
             && o.k.runs[run].phase.Verifying?
    ensures var (t, ok) := Handoff(o, work, run, Completed);
            && (NoWriteFailed(o.g, t.g) ==> ok)
            && (ok ==>
                Agree(t.g, t.k, work) && t.k.runs[run].phase.Completed? && Get(t.g.currentRun, work) == Some(run))
  {
    var (t, ok) := Handoff(o, work, run, Completed);
    if !ok {
      assert t.g.writes == o.g.writes + 1 && !o.g.disk(o.g.writes);
    }
  }
}
