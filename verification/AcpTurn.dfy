/** The ACP turn: one application Session is resolved to its durable Work, agent
    binding and Run before anything reaches the provider. */
module AcpTurn {
  import opened Basics
  import opened Lifecycle
  import opened WorkGatewayModel
  import opened ExecutionKernelModel
  import opened AcpAdmission
  import opened AcpBinding

  // ---------------------------------------------------------------- the Run step

  /** The state both owners are in. */
  datatype Owners = Owners(g: Gateway, k: Kernel)

  /** The context a turn gives to a Run it opens. */
  function TurnContext(agent: string, binding: string): Context {
    Readable(Some(agent), Some(binding), None)
  }

  /** `p` is `g` after the best-effort parking of the binding this turn activated: parked,
      unless the journal write of the parking itself failed. */
  ghost predicate Parks(g: Gateway, p: Gateway, bound: Bound) {
    var id := bound.binding;
    if !bound.activatedHere then p == g
    else
      && BindingFrame(g, p, id) && id in g.bindings && id in p.bindings && p.writes == g.writes + 1
      && p.bindings[id] == g.bindings[id].(state := if g.disk(g.writes) then Parked else g.bindings[id].state)
  }

  /** The Work points where it did, or the turn owned its current Run, could not resume it, and
      points the Work at the Run it just opened for this agent and binding. */
  predicate RunPointer(a: Owners, b: Owners, session: string, agent: string, binding: string) {
    Get(b.g.currentRun, session) == Get(a.g.currentRun, session)
    || (RunOwned(a.g, a.k, session, agent, binding)
        && (session in a.g.currentRun ==> !Continuable(a.k.runs[a.g.currentRun[session]].phase))
        && var run := MintedId(a.k.counter + 1);
        && Get(b.g.currentRun, session) == Some(run)
        && run in b.k.runs && b.k.runs[run].context == TurnContext(agent, binding))
  }

  /** Whatever Run was opened is of this Session, objective and context. */
  ghost predicate OpenedFor(a: Kernel, b: Kernel, session: string, objective: string, context: Context) {
    forall run :: run in b.runs && run !in a.runs ==>
      b.runs[run] == Run(session, objective, b.runs[run].phase, context, false)
  }

  /** The turn goes on with the Work's current Run exactly if that runs or may run again. */
  predicate Picks(a: Owners, session: string, run: string) {
    session in a.g.currentRun && a.g.currentRun[session] in a.k.runs ==>
      (run == a.g.currentRun[session] <==> Continuable(a.k.runs[a.g.currentRun[session]].phase))
  }

  /** Only the Work of this Session, its binding, its current Run and at most one newly
      minted Run are touched. */
  ghost predicate RunFrame(a: Owners, b: Owners, session: string, agent: string, bound: Bound) {
    && Sound(b.g, b.k) && Continues(a.g, b.g) && OnlyWork(a.g, b.g, session)
    && a.g.works == b.g.works && a.g.bindings - {bound.binding} == b.g.bindings - {bound.binding}
    && bound.binding in a.g.bindings && bound.binding in b.g.bindings
        && SameOwner(a.g.bindings[bound.binding], b.g.bindings[bound.binding])
    && b.g.bindings[bound.binding].provider == a.g.bindings[bound.binding].provider
    && Carries(a.k, b.k) && FinishedKept(a.g, b.g, session)
    && RunPointer(a, b, session, agent, bound.binding)
    && (session !in b.g.currentRun ==> b.g.presence == a.g.presence)
    && (forall run :: run in a.k.runs && Get(a.g.currentRun, session) != Some(run) ==> b.k.runs[run] == a.k.runs[run])
    && (forall run :: run in b.k.runs && run !in a.k.runs ==>
        run == MintedId(a.k.counter + 1) && b.k.runs[run].session == session)
  }

  ghost predicate RunOutcome(a: Owners, b: Owners, session: string, agent: string, bound: Bound,
                             r: Result<string, TurnError>)
    requires bound.binding in a.g.bindings && bound.binding in b.g.bindings
  {
    var admitted := RunOwned(a.g, a.k, session, agent, bound.binding) && RunUsable(a.g, a.k, session);
    && (NoWriteFailed(a.g, b.g) ==> (r.Success? <==> admitted))
    && (r.Success? ==>
        && Get(b.g.currentRun, session) == Some(r.value) && r.value in b.k.runs
        && b.k.runs[r.value].session == session && b.k.runs[r.value].phase.Running?
        && ContextAllows(b.k.runs[r.value].context, agent, bound.binding)
        && a.g.bindings == b.g.bindings && admitted && Picks(a, session, r.value))
    && (r.Failure? ==>
        && (r.error.RunStep() || r.error.RunLookup())
        && (NoWriteFailed(a.g, b.g) ==> r.error == RunCause(a.g, a.k, session, agent, bound.binding))
        && StartsNothing(a.k, b.k)
        && (admitted ==> RunOwned(b.g, b.k, session, agent, bound.binding) && RunUsable(b.g, b.k, session))
        && (if r.error.RunStep() then Compensated(a.g, b.g, bound) else a.g.bindings == b.g.bindings))
  }

  /** A binding this turn activated is parked again, unless that last write failed; any
      other binding stays as it is. */
  predicate Compensated(a: Gateway, b: Gateway, bound: Bound)
    requires bound.binding in b.bindings
  {
    if bound.activatedHere
    then b.writes > 0 && b.bindings[bound.binding].state == (if b.disk(b.writes - 1) then Parked else Active)
    else a.bindings == b.bindings
  }

  ghost predicate RunAgreement(a: Owners, b: Owners, session: string, agent: string, bound: Bound) {
    NoWriteFailed(a.g, b.g) && Agree(a.g, a.k, session) ==>
      (Agree(b.g, b.k, session) <==>
       !(RunOwned(a.g, a.k, session, agent, bound.binding) && Contested(a.g, a.k, session)))
  }

  ghost predicate RunStep(a: Owners, b: Owners, session: string, agent: string, bound: Bound,
                          r: Result<string, TurnError>)
  {
    && RunFrame(a, b, session, agent, bound)
    && RunOutcome(a, b, session, agent, bound, r)
    && RunAgreement(a, b, session, agent, bound)
  }

  /** The facts the binding step leaves behind. */
  ghost predicate Ready4Run(a: Owners, session: string, agent: string, bound: Bound) {
    && Sound(a.g, a.k) && session in a.g.works && a.g.works[session].session == Some(session)
    && Matches(a.g, bound.binding, session, agent) && a.g.bindings[bound.binding].state.Active?
  }

  lemma ParkKeepsFrame(a: Gateway, g: Gateway, p: Gateway, k: Kernel, session: string, bound: Bound)
    requires Parks(g, p, bound) && bound.binding in g.bindings && g.bindings[bound.binding].work == session
    requires Sound(g, k) && Continues(a, g) && OnlyWork(a, g, session)
    ensures Sound(p, k) && Continues(a, p) && OnlyWork(a, p, session)
  {
    if bound.activatedHere {
      OnlyBindingChanged(g, p, session, bound.binding);
      BindingRewritten(g, p, k, bound.binding);
      OnlyWorkTransitive(a, g, p, session);
    }
  }

  /** Parking touches no Run, and its write is the last one tried. */
  lemma ParkSeen(g: Gateway, p: Gateway, bound: Bound)
    requires Parks(g, p, bound) && bound.binding in g.bindings && g.bindings[bound.binding].state.Active?
    ensures p.currentRun == g.currentRun && p.runStates == g.runStates && p.presence == g.presence
    ensures p.approvals == g.approvals && p.uncertain == g.uncertain && p.disk == g.disk && g.writes <= p.writes
    ensures bound.binding in p.bindings && Compensated(g, p, bound)
  {
  }

  /** A failed step that starts the Run: what is left to show once its frame is known. */
  lemma FailedStep(a: Owners, b: Owners, session: string, agent: string, bound: Bound, error: TurnError)
    requires RunFrame(a, b, session, agent, bound) && error.RunStep() && Compensated(a.g, b.g, bound)
    requires StartsNothing(a.k, b.k) && RunOwned(a.g, a.k, session, agent, bound.binding)
    requires RunOwned(b.g, b.k, session, agent, bound.binding)
    requires RunUsable(a.g, a.k, session) ==> RunUsable(b.g, b.k, session) && !NoWriteFailed(a.g, b.g)
    requires NoWriteFailed(a.g, b.g) ==> error == RunCause(a.g, a.k, session, agent, bound.binding)
    requires RunAgreement(a, b, session, agent, bound)
    ensures RunStep(a, b, session, agent, bound, Failure(error))
  {
  }

  lemma OnlyWorkTransitive(a: Gateway, b: Gateway, c: Gateway, work: string)
    requires OnlyWork(a, b, work) && OnlyWork(b, c, work) && Continues(a, b) && Continues(b, c)
    ensures OnlyWork(a, c, work) && Continues(a, c)
  {
  }

  lemma OnlyBindingChanged(a: Gateway, b: Gateway, work: string, id: string)
    requires BindingFrame(a, b, id) && id in a.bindings && id in b.bindings
    requires a.bindings[id].work == work && SameOwner(a.bindings[id], b.bindings[id])
    ensures Continues(a, b) && OnlyWork(a, b, work)
  {
    forall other | other in a.bindings
      ensures other in b.bindings
              && SameOwner(a.bindings[other], b.bindings[other])
              && (other != id ==> b.bindings[other] == a.bindings[other])
    {
      if other != id {
        assert other in a.bindings - {id} && a.bindings[other] == (b.bindings - {id})[other];
      }
    }
    forall other | other in b.bindings && b.bindings[other].work != work ensures other in a.bindings {
      assert other in b.bindings - {id};
    }
  }

  // ---------------------------------------------------------------- one lemma per path

  /** The current Run is refused before anything is started. */
  lemma RunRejected(a: Owners, session: string, agent: string, bound: Bound, error: TurnError)
    requires Ready4Run(a, session, agent, bound) && error.RunLookup()
    requires !RunOwned(a.g, a.k, session, agent, bound.binding)
    requires error == RunCause(a.g, a.k, session, agent, bound.binding)
    ensures RunStep(a, a, session, agent, bound, Failure(error))
  {
  }

  /** The current Run is running already. */
  lemma RunReused(a: Owners, session: string, agent: string, bound: Bound)
    requires Ready4Run(a, session, agent, bound) && RunOwned(a.g, a.k, session, agent, bound.binding)
    requires session in a.g.currentRun && a.k.runs[a.g.currentRun[session]].phase.Running?
    ensures RunStep(a, a, session, agent, bound, Success(a.g.currentRun[session]))
  {
  }

  /** A resumable current Run, owned by this turn. */
  predicate Resumes(a: Owners, session: string, agent: string, bound: Bound) {
    && session in a.g.currentRun && RunOwned(a.g, a.k, session, agent, bound.binding)
    && var phase := a.k.runs[a.g.currentRun[session]].phase; Continuable(phase) && !phase.Running?
  }

  /** The kernel refuses to start the current Run again. */
  lemma ResumeRefused(a: Owners, p: Gateway, session: string, agent: string, bound: Bound)
    requires Ready4Run(a, session, agent, bound) && Resumes(a, session, agent, bound)
    requires !a.k.MayMove(a.g.currentRun[session], Running) && Parks(a.g, p, bound)
    ensures RunStep(a, Owners(p, a.k), session, agent, bound, Failure(RunRefused))
  {
    RefusedFrame(a, p, session, agent, bound);
    ParkSeen(a.g, p, bound);
  }

  lemma RefusedFrame(a: Owners, p: Gateway, session: string, agent: string, bound: Bound)
    requires Ready4Run(a, session, agent, bound) && Parks(a.g, p, bound)
    ensures RunFrame(a, Owners(p, a.k), session, agent, bound)
  {
    ParkKeepsFrame(a.g, a.g, p, a.k, session, bound);
  }

  /** What a recorded move of the Work's Run leaves in the gateway. */
  ghost predicate Moved(a: Gateway, b: Gateway, work: string, run: string, to: State) {
    && b == a.(runStates := a.runStates[(work, run) := to], presence := a.presence[work := to], journal := b.journal,
               writes := b.writes)
    && a.journal <= b.journal && a.writes <= b.writes
  }

  /** Both owners accept the resumption. */
  lemma ResumeRecorded(a: Owners, g: Gateway, session: string, agent: string, bound: Bound)
    requires Ready4Run(a, session, agent, bound) && Resumes(a, session, agent, bound)
    requires var run := a.g.currentRun[session];
             a.k.MayMove(run, Running) && a.g.MayMove(session, run, Running) && Moved(a.g, g, session, run, Running)
    ensures var run := a.g.currentRun[session];
            RunStep(a, Owners(g, a.k.Transition(run, Running).0), session, agent, bound, Success(run))
  {
    var run := a.g.currentRun[session];
    var b := Owners(g, a.k.Transition(run, Running).0);
    PhaseMoved(a.k, b.k, run, Running);
    StateMoved(a.g, b.g, a.k.counter, session, run, Running);
    assert RunFrame(a, b, session, agent, bound);
  }

  /** The kernel restarts the Run, the gateway does not record it: the Run is failed and
      the binding is parked again. */
  lemma ResumeUnrecorded(a: Owners, g: Gateway, p: Gateway, k: Kernel, session: string, agent: string, bound: Bound)
    requires Ready4Run(a, session, agent, bound) && Resumes(a, session, agent, bound)
    requires var run := a.g.currentRun[session];
             a.k.MayMove(run, Running) && k == a.k.(runs := a.k.runs[run := a.k.runs[run].(phase := Failed)])
    requires g == a.g.(writes := g.writes) && a.g.writes <= g.writes && Parks(g, p, bound)
    requires a.g.MayMove(session, a.g.currentRun[session], Running) ==> !NoWriteFailed(a.g, g)
    ensures RunStep(a, Owners(p, k), session, agent, bound, Failure(RunUnrecorded))
  {
    FailedFrame(a, g, p, k, session, agent, bound);
    ParkSeen(g, p, bound);
    FailedRetry(a, p, k, session, agent, bound.binding);
    assert NoWriteFailed(a.g, p) ==> NoWriteFailed(a.g, g);
    FailedStep(a, Owners(p, k), session, agent, bound, RunUnrecorded);
  }

  /** A Run the kernel failed after it could have been resumed leaves the way open for a
      new one, and the two owners apart. */
  lemma FailedRetry(a: Owners, p: Gateway, k: Kernel, session: string, agent: string, binding: string)
    requires session in a.g.currentRun && RunOwned(a.g, a.k, session, agent, binding)
    requires var run := a.g.currentRun[session];
             Continuable(a.k.runs[run].phase) && !a.k.runs[run].phase.Running?
             && k == a.k.(runs := a.k.runs[run := a.k.runs[run].(phase := Failed)])
    requires p.currentRun == a.g.currentRun && p.runStates == a.g.runStates && p.presence == a.g.presence
    ensures StartsNothing(a.k, k) && RunOwned(p, k, session, agent, binding)
    ensures RunUsable(a.g, a.k, session) ==> RunUsable(p, k, session)
    ensures Agree(a.g, a.k, session) ==> !Agree(p, k, session)
  {
  }

  lemma FailedFrame(a: Owners, g: Gateway, p: Gateway, k: Kernel, session: string, agent: string, bound: Bound)
    requires Ready4Run(a, session, agent, bound) && Resumes(a, session, agent, bound)
    requires var run := a.g.currentRun[session]; k == a.k.(runs := a.k.runs[run := a.k.runs[run].(phase := Failed)])
    requires g == a.g.(writes := g.writes) && a.g.writes <= g.writes && Parks(g, p, bound)
    ensures RunFrame(a, Owners(p, k), session, agent, bound)
  {
    PhaseMoved(a.k, k, a.g.currentRun[session], Failed);
    IdsAheadSame(a.g, g, k.counter);
    ParkKeepsFrame(a.g, g, p, k, session, bound);
  }

  lemma RestartThenFail(k: Kernel, run: string)
    requires k.MayMove(run, Running)
    ensures var started := k.Transition(run, Running).0;
            started.Transition(run, Failed) == (k.(runs := k.runs[run := k.runs[run].(phase := Failed)]), true)
  {
    var started := k.Transition(run, Running).0;
    assert started.runs[run := started.runs[run].(phase := Failed)] == k.runs[run := k.runs[run].(phase := Failed)];
  }

  lemma PhaseMoved(a: Kernel, b: Kernel, run: string, phase: State)
    requires a.CounterAhead() && run in a.runs && !a.runs[run].phase.Terminal()
             && b == a.(runs := a.runs[run := a.runs[run].(phase := phase)])
    ensures b.CounterAhead() && Carries(a, b)
  {
    forall n: nat | n > b.counter ensures MintedId(n) !in b.runs {
      assert MintedId(n) !in a.runs;
    }
  }

  /** Moving the current Run of one Work keeps the ids apart and leaves other Works alone. */
  lemma StateMoved(a: Gateway, b: Gateway, counter: nat, work: string, run: string, to: State)
    requires IdsAhead(a, counter) && Get(a.currentRun, work) == Some(run)
    requires Moved(a, b, work, run, to)
    ensures IdsAhead(b, counter) && OnlyWork(a, b, work) && Continues(a, b)
  {
    forall n: nat, w | n > counter ensures Unused(b, w, MintedId(n)) {
      assert Unused(a, w, MintedId(n));
    }
    assert a.presence - {work} == b.presence - {work};
  }

  // ---------------------------------------------------------------- a new Run

  /** The Work has no current Run, or one that cannot be resumed. */
  predicate Replaces(a: Owners, session: string, agent: string, bound: Bound) {
    && RunOwned(a.g, a.k, session, agent, bound.binding)
    && (session in a.g.currentRun ==> !Continuable(a.k.runs[a.g.currentRun[session]].phase))
  }

  /** `run` is the id the kernel mints next, and `k` is the kernel that opened it for this
      turn, in the given phase. */
  ghost predicate Minted(a: Kernel, k: Kernel, run: string, session: string, phase: State, context: Context) {
    && k.CounterAhead() && k.counter == a.counter + 1 && run == MintedId(a.counter + 1) && run !in a.runs
    && run in k.runs && k.runs[run].session == session && k.runs[run].phase == phase && k.runs[run].context == context
    && k.runs - {run} == a.runs
  }

  /** A fresh Run is minted and the kernel always starts it. */
  lemma MintedBy(a: Kernel, session: string, objective: string, context: Context)
    requires a.CounterAhead()
    ensures var run := MintedId(a.counter + 1); var begun := a.Begin(session, objective, context);
            && begun.Transition(run, Running).1 && begun.Transition(run, Running).0.Transition(run, Failed).1
            && Minted(a, begun.Transition(run, Running).0, run, session, Running, context)
            && Minted(a, begun.Transition(run, Running).0.Transition(run, Failed).0, run, session, Failed, context)
  {
    BeginIsFresh(a, session, objective, context);
    var run := MintedId(a.counter + 1);
    var begun := a.Begin(session, objective, context);
    PhaseMoved(begun, begun.Transition(run, Running).0, run, Running);
    PhaseMoved(begun, begun.Transition(run, Running).0.Transition(run, Failed).0, run, Failed);
  }

  lemma MintedIdIsWord(n: nat)
    ensures !Blank(MintedId(n))
  {
    assert MintedId(n)[0] == 'e';
  }

  /** What pointing the Work at `run` leaves in the gateway. */
  ghost predicate Pointed(a: Gateway, b: Gateway, work: string, run: string, to: State) {
    && b == a.(currentRun := a.currentRun[work := run], runStates := a.runStates[(work, run) := to],
               runFields := b.runFields, presence := b.presence, journal := b.journal, writes := b.writes)
    && b.runFields == a.runFields[(work, run) := Described(b.runFields, (work, run))]
    && a.presence - {work} == b.presence - {work} && a.journal <= b.journal && a.writes <= b.writes
  }

  lemma PointedFresh(a: Gateway, b: Gateway, counter: nat, work: string, run: string, to: State)
    requires IdsAhead(a, counter) && RunsPlaced(a.works, a.currentRun) && FieldsPlaced(a.currentRun, a.runFields)
    requires work in a.works && run == MintedId(counter + 1) && Pointed(a, b, work, run, to)
    ensures IdsAhead(b, counter + 1) && RunsPlaced(b.works, b.currentRun) && FieldsPlaced(b.currentRun, b.runFields)
    ensures OnlyWork(a, b, work) && Continues(a, b)
  {
    forall n: nat, w | n > counter + 1 ensures Unused(b, w, MintedId(n)) {
      assert Unused(a, w, MintedId(n));
      if MintedId(n) == run {
        MintedIdInjective(n, counter + 1);
      }
    }
    forall v, w | v in b.currentRun && w in b.currentRun && b.currentRun[v] == b.currentRun[w] ensures v == w {
      assert Unused(a, v, run) && Unused(a, w, run);
    }
    assert a.currentRun - {work} == b.currentRun - {work};
  }

  /** The gateway refuses to point the Work at the new Run. */
  lemma RunUnbound(a: Owners, g: Gateway, p: Gateway, k: Kernel, run: string, session: string, agent: string,
                   bound: Bound)
    requires Ready4Run(a, session, agent, bound) && Replaces(a, session, agent, bound)
    requires Minted(a.k, k, run, session, Failed, TurnContext(agent, bound.binding))
    requires g == a.g.(writes := g.writes) && a.g.writes <= g.writes && Parks(g, p, bound)
    requires RunUsable(a.g, a.k, session) ==> !NoWriteFailed(a.g, g)
    ensures RunStep(a, Owners(p, k), session, agent, bound, Failure(RunUnrecorded))
  {
    UnboundFrame(a, g, p, k, run, session, agent, bound);
    ParkSeen(g, p, bound);
    KernelGrew(a.k, k, run);
    NothingStarted(a.k, k, run);
    OldRunSeen(a, p, k, session, agent, bound.binding);
    assert NoWriteFailed(a.g, p) ==> NoWriteFailed(a.g, g);
    FailedStep(a, Owners(p, k), session, agent, bound, RunUnrecorded);
  }

  /** The checks on the current Run see nothing of a Run opened beside it. */
  lemma OldRunSeen(a: Owners, p: Gateway, k: Kernel, session: string, agent: string, binding: string)
    requires RunOwned(a.g, a.k, session, agent, binding)
    requires session in a.g.currentRun ==> !Continuable(a.k.runs[a.g.currentRun[session]].phase)
    requires p.currentRun == a.g.currentRun && p.runStates == a.g.runStates && p.presence == a.g.presence
    requires forall other :: other in a.k.runs ==> other in k.runs && k.runs[other] == a.k.runs[other]
    ensures RunOwned(p, k, session, agent, binding) && !Contested(a.g, a.k, session)
    ensures RunUsable(a.g, a.k, session) ==> RunUsable(p, k, session)
    ensures Agree(a.g, a.k, session) ==> Agree(p, k, session)
  {
  }

  lemma UnboundFrame(a: Owners, g: Gateway, p: Gateway, k: Kernel, run: string, session: string, agent: string,
                     bound: Bound)
    requires Ready4Run(a, session, agent, bound) && run !in a.k.runs
    requires Minted(a.k, k, run, session, Failed, TurnContext(agent, bound.binding))
    requires g == a.g.(writes := g.writes) && a.g.writes <= g.writes && Parks(g, p, bound)
    ensures RunFrame(a, Owners(p, k), session, agent, bound)
  {
    IdsAheadSame(a.g, g, a.k.counter);
    IdsAheadLater(g, a.k.counter);
    KernelGrew(a.k, k, run);
    ParkKeepsFrame(a.g, g, p, k, session, bound);
  }

  lemma IdsAheadLater(g: Gateway, counter: nat)
    requires IdsAhead(g, counter)
    ensures IdsAhead(g, counter + 1)
  {
  }

  lemma KernelGrew(a: Kernel, k: Kernel, run: string)
    requires k.runs - {run} == a.runs && run !in a.runs && run in k.runs
    ensures RunsKept(a.runs, k.runs)
    ensures forall other :: other in a.runs ==> k.runs[other] == a.runs[other]
    ensures forall other :: other in k.runs && other !in a.runs ==> other == run
  {
    forall other | other in a.runs ensures other in k.runs && k.runs[other] == a.runs[other] {
      assert other in k.runs - {run};
    }
    forall other | other in k.runs && other !in a.runs ensures other == run {
      assert other !in k.runs - {run};
    }
  }

  /** The Work points at the new Run, but its start is not recorded. */
  lemma RunHalfway(a: Owners, g: Gateway, p: Gateway, k: Kernel, run: string, session: string, agent: string,
                   bound: Bound)
    requires Ready4Run(a, session, agent, bound) && Replaces(a, session, agent, bound)
    requires Minted(a.k, k, run, session, Failed, TurnContext(agent, bound.binding))
    requires RunUsable(a.g, a.k, session) && Pointed(a.g, g, session, run, Ready) && !NoWriteFailed(a.g, g)
             && Parks(g, p, bound)
    ensures RunStep(a, Owners(p, k), session, agent, bound, Failure(RunUnrecorded))
  {
    HalfwayFrame(a, g, p, k, run, session, agent, bound);
    ParkSeen(g, p, bound);
    NothingStarted(a.k, k, run);
    HalfwayRetry(p, k, run, session, agent, bound.binding);
    assert !NoWriteFailed(a.g, p);
    FailedStep(a, Owners(p, k), session, agent, bound, RunUnrecorded);
  }

  lemma HalfwayRetry(p: Gateway, k: Kernel, run: string, session: string, agent: string, binding: string)
    requires Get(p.currentRun, session) == Some(run) && Get(p.runStates, (session, run)) == Some(Ready)
    requires run in k.runs && k.runs[run].session == session && k.runs[run].phase.Failed?
             && k.runs[run].context == TurnContext(agent, binding)
    ensures RunOwned(p, k, session, agent, binding) && RunUsable(p, k, session)
  {
  }

  /** A Run opened and failed in one turn leaves no Run running that was not. */
  lemma NothingStarted(a: Kernel, k: Kernel, run: string)
    requires k.runs - {run} == a.runs && run !in a.runs && run in k.runs && k.runs[run].phase.Failed?
    ensures StartsNothing(a, k)
  {
    KernelGrew(a, k, run);
  }

  lemma HalfwayFrame(a: Owners, g: Gateway, p: Gateway, k: Kernel, run: string, session: string, agent: string,
                     bound: Bound)
    requires Ready4Run(a, session, agent, bound) && Replaces(a, session, agent, bound) && RunUsable(a.g, a.k, session)
    requires Minted(a.k, k, run, session, Failed, TurnContext(agent, bound.binding))
    requires Pointed(a.g, g, session, run, Ready) && Parks(g, p, bound)
    ensures RunFrame(a, Owners(p, k), session, agent, bound)
  {
    PointedFresh(a.g, g, a.k.counter, session, run, Ready);
    KernelGrew(a.k, k, run);
    ParkKeepsFrame(a.g, g, p, k, session, bound);
  }

  /** Bound and recorded: the Work is running its new Run. */
  lemma RunOpened(a: Owners, g: Gateway, k: Kernel, run: string, session: string, agent: string, bound: Bound)
    requires Ready4Run(a, session, agent, bound) && Replaces(a, session, agent, bound)
    requires Minted(a.k, k, run, session, Running, TurnContext(agent, bound.binding))
    requires Pointed(a.g, g, session, run, Running) && Get(g.presence, session) == Some(Running)
    requires RunUsable(a.g, a.k, session)
    ensures RunStep(a, Owners(g, k), session, agent, bound, Success(run))
  {
    PointedFresh(a.g, g, a.k.counter, session, run, Running);
    KernelGrew(a.k, k, run);
    assert RunFrame(a, Owners(g, k), session, agent, bound);
  }
}
