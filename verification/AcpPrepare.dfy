/** The call that prepares an ACP turn: trimmed ids in, one durable
    Work → binding → Run identity out, with compensation when a step fails. */
module AcpPrepare {
  import opened Basics
  import opened Lifecycle
  import opened WorkGatewayModel
  import opened ExecutionKernelModel
  import opened AcpAdmission
  import opened AcpBinding
  import opened AcpTurn
  import opened AcpCompose

  // ---------------------------------------------------------------- the Run step

  /** Best effort: an error of the parking itself is dropped. */
  method ParkIfActivated(gateway: WorkGateway, bound: Bound)
    requires bound.binding in gateway.bindings && gateway.bindings[bound.binding].state.Active?
    requires gateway.bindings[bound.binding].work in gateway.works
    modifies gateway
    ensures Parks(old(gateway.Now()), gateway.Now(), bound)
  {
    if bound.activatedHere {
      ghost var g := gateway.Now();
      var _ := gateway.MoveBinding(bound.binding, Suspend, None);
      assert g.bindings - {bound.binding} == gateway.bindings - {bound.binding};
    }
  }

  /** The current Run is not running but can be resumed. */
  method ResumeRun(gateway: WorkGateway, kernel: ExecutionKernel, session: string, ghost agent: string, bound: Bound)
    returns (r: Result<string, TurnError>)
    requires Ready4Run(Owners(gateway.Now(), kernel.Now()), session, agent, bound)
    requires Resumes(Owners(gateway.Now(), kernel.Now()), session, agent, bound)
    modifies gateway, kernel
    ensures RunStep(old(Owners(gateway.Now(), kernel.Now())), Owners(gateway.Now(), kernel.Now()), session, agent,
                    bound, r)
    ensures kernel.runs.Keys == old(kernel.runs).Keys
  {
    ghost var a := Owners(gateway.Now(), kernel.Now());
    var run := gateway.currentRun[session];
    var ok := kernel.Transition(run, Running);
    if !ok {
      ParkIfActivated(gateway, bound);
      ResumeRefused(a, gateway.Now(), session, agent, bound);
      return Failure(RunRefused);
    }
    ok := gateway.RecordTransition(session, run, Running);
    if !ok {
      ghost var g := gateway.Now();
      RestartThenFail(a.k, run);
      var _ := kernel.Transition(run, Failed);
      ParkIfActivated(gateway, bound);
      assert g == a.g.(writes := g.writes);
      ResumeUnrecorded(a, g, gateway.Now(), kernel.Now(), session, agent, bound);
      return Failure(RunUnrecorded);
    }
    ResumeRecorded(a, gateway.Now(), session, agent, bound);
    return Success(run);
  }

  /** Opens a Run for this turn, binds it to the Work and records its start. */
  method StartRun(gateway: WorkGateway, kernel: ExecutionKernel, session: string, agent: string, bound: Bound,
                  objective: string)
    returns (r: Result<string, TurnError>)
    requires Ready4Run(Owners(gateway.Now(), kernel.Now()), session, agent, bound)
    requires Replaces(Owners(gateway.Now(), kernel.Now()), session, agent, bound)
    modifies gateway, kernel
    ensures RunStep(old(Owners(gateway.Now(), kernel.Now())), Owners(gateway.Now(), kernel.Now()), session, agent,
                    bound, r)
    ensures OpenedFor(old(kernel.Now()), kernel.Now(), session, objective, TurnContext(agent, bound.binding))
  {
    ghost var a := Owners(gateway.Now(), kernel.Now());
    MintedBy(a.k, session, objective, TurnContext(agent, bound.binding));
    var run := kernel.Begin(session, objective, TurnContext(agent, bound.binding));
    var ok := kernel.Transition(run, Running);
    if !ok {
      // A Run just opened is Ready, and the kernel always starts a Ready Run.
      assert false;
    }
    ghost var started := kernel.Now();
    BindFresh(a, run, session, agent, bound);
    ok := gateway.BindExecution(session, run);
    ghost var g := gateway.Now();
    if !ok {
      var _ := kernel.Transition(run, Failed);
      ParkIfActivated(gateway, bound);
      RunUnbound(a, g, gateway.Now(), kernel.Now(), run, session, agent, bound);
      return Failure(RunUnrecorded);
    }
    RecordFresh(a, g, run, session, bound);
    ok := gateway.RecordTransition(session, run, Running);
    if !ok {
      ghost var h := gateway.Now();
      var _ := kernel.Transition(run, Failed);
      ParkIfActivated(gateway, bound);
      RunHalfway(a, h, gateway.Now(), kernel.Now(), run, session, agent, bound);
      return Failure(RunUnrecorded);
    }
    RunOpened(a, gateway.Now(), started, run, session, agent, bound);
    return Success(run);
  }

  /** Pointing the Work at the new Run fails only when the current Run is finished in the
      gateway's eyes or the write fails. */
  lemma BindFresh(a: Owners, run: string, session: string, agent: string, bound: Bound)
    requires Ready4Run(a, session, agent, bound) && Replaces(a, session, agent, bound)
             && run == MintedId(a.k.counter + 1)
    ensures var (g, ok) := a.g.BindExecution(session, run);
            && a.g.writes <= g.writes
            && (ok ==>
                && Pointed(a.g, g, session, run, Ready) && g.presence == a.g.presence
                && RunUsable(a.g, a.k, session))
            && (!ok ==> g == a.g.(writes := g.writes) && (RunUsable(a.g, a.k, session) ==> !NoWriteFailed(a.g, g)))
  {
    MintedIdIsWord(a.k.counter + 1);
    FreshRunStates(a, run, session);
    MergeExactly(map[], a.g.link(a.g.writes));
    var (g, ok) := a.g.BindExecution(session, run);
    if !ok && RunUsable(a.g, a.k, session) {
      assert g.writes == a.g.writes + 1 && !a.g.disk(a.g.writes);
    }
  }

  /** Recording the start of a Run the Work was just pointed at fails only with the write. */
  lemma RecordFresh(a: Owners, g: Gateway, run: string, session: string, bound: Bound)
    requires session in a.g.works && Pointed(a.g, g, session, run, Ready) && g.works == a.g.works && g.disk == a.g.disk
    ensures var (h, ok) := g.RecordTransition(session, run, Running);
            if ok then Pointed(a.g, h, session, run, Running) && Get(h.presence, session) == Some(Running)
            else Pointed(a.g, h, session, run, Ready) && !NoWriteFailed(a.g, h)
  {
    var (h, ok) := g.RecordTransition(session, run, Running);
    if ok {
      assert h.runStates == a.g.runStates[(session, run) := Running];
      assert a.g.presence - {session} == h.presence - {session};
    } else {
      assert h.writes == g.writes + 1 && !g.disk(g.writes);
    }
  }

  lemma FreshRunStates(a: Owners, run: string, session: string)
    requires IdsAhead(a.g, a.k.counter) && run == MintedId(a.k.counter + 1)
    ensures (session, run) !in a.g.runStates && (session, run) !in a.g.runFields
    ensures Get(a.g.currentRun, session) != Some(run)
  {
    assert Unused(a.g, session, run);
  }

  method OpenRun(gateway: WorkGateway, kernel: ExecutionKernel, session: string, agent: string, bound: Bound,
                 objective: string)
    returns (r: Result<string, TurnError>)
    requires Ready4Run(Owners(gateway.Now(), kernel.Now()), session, agent, bound)
    modifies gateway, kernel
    ensures RunStep(old(Owners(gateway.Now(), kernel.Now())), Owners(gateway.Now(), kernel.Now()), session, agent,
                    bound, r)
    ensures OpenedFor(old(kernel.Now()), kernel.Now(), session, objective, TurnContext(agent, bound.binding))
  {
    ghost var a := Owners(gateway.Now(), kernel.Now());
    if session in gateway.currentRun {
      var run := gateway.currentRun[session];
      var error := CheckRun(kernel, session, agent, bound.binding, run);
      if error.Some? {
        RunRejected(a, session, agent, bound, error.value);
        return Failure(error.value);
      }
      var phase := kernel.runs[run].phase;
      ResumableExactly(phase);
      if phase.Resumable() {
        if phase.Running? {
          RunReused(a, session, agent, bound);
          return Success(run);
        }
        r := ResumeRun(gateway, kernel, session, agent, bound);
        return;
      }
    }
    r := StartRun(gateway, kernel, session, agent, bound, objective);
  }

  /** The checks on the Work's current Run; the first that fails is reported. */
  method CheckRun(kernel: ExecutionKernel, session: string, agent: string, binding: string, run: string)
    returns (error: Option<TurnError>)
    ensures error.None? <==>
            run in kernel.runs && kernel.runs[run].session == session
            && ContextAllows(kernel.runs[run].context, agent, binding)
    ensures error == Some(RunMissing) <==> run !in kernel.runs
    ensures error == Some(RunForeign) <==> run in kernel.runs && kernel.runs[run].session != session
    ensures error == Some(RunOfAnotherAgent) <==>
            run in kernel.runs && kernel.runs[run].session == session && kernel.runs[run].context.Readable?
            && kernel.runs[run].context.agent.Some? && kernel.runs[run].context.agent.value != agent
    ensures error.Some? ==> error.value.RunLookup()
  {
    if run !in kernel.runs {
      return Some(RunMissing);
    }
    var existing := kernel.runs[run];
    if existing.session != session {
      return Some(RunForeign);
    }
    if existing.context.Readable? {
      if existing.context.agent.Some? && existing.context.agent.value != agent {
        return Some(RunOfAnotherAgent);
      }
      if existing.context.binding.Some? && existing.context.binding.value != binding {
        return Some(RunOfAnotherBinding);
      }
    }
    return None;
  }

  // ---------------------------------------------------------------- the whole call

  method PrepareAcpTurn(gateway: WorkGateway, kernel: ExecutionKernel, applicationSession: string, agentId: string,
                        providerSession: string, objective: string)
    returns (r: Result<TurnIdentity, TurnError>, ghost pick: string)
    requires Sound(gateway.Now(), kernel.Now())
    modifies gateway, kernel
    ensures TurnStep(old(Owners(gateway.Now(), kernel.Now())), Owners(gateway.Now(), kernel.Now()),
                     Caller(Trim(applicationSession), Trim(agentId), Trim(providerSession)), pick, r)
    ensures CreatedFor(old(gateway.Now()), gateway.Now(), Trim(applicationSession), objective)
    ensures OpenedFor(old(kernel.Now()), kernel.Now(), Trim(applicationSession), objective,
                      Readable(Some(Trim(agentId)), Some(pick), None))
  {
    ghost var a := Owners(gateway.Now(), kernel.Now());
    var session, agent, provider := Trim(applicationSession), Trim(agentId), Trim(providerSession);
    ghost var c := Caller(session, agent, provider);
    pick := PickBinding(a.g.bindings, session, agent);
    if session == "" {
      RefusedAtDoor(a, c, pick, MissingApplicationSession);
      return Failure(MissingApplicationSession), pick;
    }
    if agent == "" {
      RefusedAtDoor(a, c, pick, EmptyAgent);
      return Failure(EmptyAgent), pick;
    }
    if provider == "" {
      RefusedAtDoor(a, c, pick, MissingProviderSession);
      return Failure(MissingProviderSession), pick;
    }

    var work := CanonicalWorkId(session);
    var kind := if work in gateway.works then gateway.works[work].kind else Interactive;
    WorkResolved(a.g, a.k, session, objective);
    var ok := gateway.CreateWork(work, Some(session), kind, objective);
    ghost var g := gateway.Now();
    if !ok {
      RefusedAtWork(a, g, c, pick);
      return Failure(WorkRefused), pick;
    }

    var bound;
    bound, pick := ResolveBinding(gateway, kernel.Now(), session, agent, provider);
    ghost var h := gateway.Now();
    CreatedForStays(a.g, g, h, session, objective);
    if bound.Failure? {
      RefusedAtBinding(a, g, h, c, pick, bound.error);
      return Failure(bound.error), pick;
    }

    var run := OpenRun(gateway, kernel, session, agent, bound.value, objective);
    CreatedForStays(a.g, h, gateway.Now(), session, objective);
    Through(a, g, h, Owners(gateway.Now(), kernel.Now()), c, pick, bound.value, run);
    if run.Failure? {
      return Failure(run.error), pick;
    }
    return Success(TurnIdentity(CanonicalOwner(session, work, bound.value.binding), run.value)), pick;
  }
}
