/** How the three steps of preparing an ACP turn (Work, binding, Run) compose. */
module AcpCompose {
  import opened Basics
  import opened Lifecycle
  import opened WorkGatewayModel
  import opened ExecutionKernelModel
  import opened AcpAdmission
  import opened AcpBinding
  import opened AcpTurn

  // ---------------------------------------------------------------- what a turn promises

  /** Who asks for the turn; the three ids are already trimmed. */
  datatype Caller = Caller(session: string, agent: string, provider: string)

  /** The tuple a successful turn answers with: Work id = Session id, an Active binding of
      this Session, Work and agent holding the caller's provider session, and a Running Run
      of this Session, agent and binding that is the Work's current Run. */
  predicate Identified(o: Owners, c: Caller, identity: TurnIdentity) {
    && identity.owner.session == identity.owner.work == c.session
    && c.session in o.g.works && o.g.works[c.session].session == Some(c.session)
    && Matches(o.g, identity.owner.binding, c.session, c.agent)
    && o.g.bindings[identity.owner.binding].state.Active?
    && o.g.bindings[identity.owner.binding].provider == Some(c.provider)
    && Get(o.g.currentRun, c.session) == Some(identity.run)
    && identity.run in o.k.runs && o.k.runs[identity.run].session == c.session && o.k.runs[identity.run].phase.Running?
    && ContextAllows(o.k.runs[identity.run].context, c.agent, identity.owner.binding)
  }

  /** Only this Session's Work, the binding `pick` the turn found and the Work's current Run
      change, plus one Run it may open. A binding is added only where the agent had none. */
  ghost predicate TurnFrame(a: Owners, b: Owners, c: Caller, pick: string) {
    && Sound(b.g, b.k) && Continues(a.g, b.g) && OnlyWork(a.g, b.g, c.session) && Carries(a.k, b.k)
    && OtherRunsSame(a, b, c) && FinishedKept(a.g, b.g, c.session)
    && OneBindingChanged(a.g.bindings, b.g.bindings, c, pick)
    && RunPointer(a, b, c.session, c.agent, pick)
    && (Unstarted(a.g, c.session) ==> Unstarted(b.g, c.session))
  }

  ghost predicate OtherRunsSame(a: Owners, b: Owners, c: Caller) {
    && (forall run :: run in a.k.runs && Get(a.g.currentRun, c.session) != Some(run) ==>
          run in b.k.runs && b.k.runs[run] == a.k.runs[run])
    && (forall run :: run in b.k.runs && run !in a.k.runs ==> b.k.runs[run].session == c.session)
  }

  ghost predicate OneBindingChanged(a: map<string, AgentBinding>, b: map<string, AgentBinding>, c: Caller,
                                    pick: string)
  {
    && Choice(a, c.session, c.agent, pick) && a - {pick} == b - {pick}
    && (pick in b && pick !in a ==> NoneFor(a, c.session, c.agent) && ForAgent(b, pick, c.session, c.agent))
  }

  /** The binding after a failed turn. A failure of the steps that start the Run leaves a
      binding this turn activated parked, unless the parking write (the last one) failed; a
      refusal of the Work's current Run leaves it Active; any earlier failure leaves an existing
      binding alone and a new one parked. */
  predicate BindingAfterFailure(a: Owners, b: Owners, c: Caller, pick: string, error: TurnError) {
    && (error.RunStep() || error.RunLookup() || LeftParked(a.g.bindings, b.g.bindings, c.session, c.agent, pick))
    && (error.RunStep() || error.RunLookup() ==> pick in b.g.bindings)
    && (error.RunLookup() ==> b.g.bindings[pick].state.Active?)
    && (error.RunStep() ==>
        if pick in a.g.bindings && a.g.bindings[pick].state.Active? then b.g.bindings[pick].state.Active?
        else b.g.writes > 0 && b.g.bindings[pick].state == (if b.g.disk(b.g.writes - 1) then Parked else Active))
  }

  /** The result, in terms of the state before the call and the binding found in it. */
  ghost predicate TurnResult(a: Owners, b: Owners, c: Caller, pick: string, r: Result<TurnIdentity, TurnError>) {
    var before := Admissible(a.g, a.k, c.session, c.agent, c.provider, pick);
    && (r.Success? ==> before)
    && (NoWriteFailed(a.g, b.g) && before ==> r.Success?)
    && (r.Success? ==> Identified(b, c, r.value) && r.value.owner.binding == pick && Picks(a, c.session, r.value.run))
    && (r.Failure? ==>
        && StartsNothing(a.k, b.k)
        && BindingAfterFailure(a, b, c, pick, r.error)
        && (NoWriteFailed(a.g, b.g) ==> r.error == Cause(a.g, a.k, c.session, c.agent, c.provider, pick))
        && (before ==> Admissible(b.g, b.k, c.session, c.agent, c.provider, pick)))
  }

  /** Two owners in agreement stay in agreement, except for a contested resumption. */
  ghost predicate TurnAgreement(a: Owners, b: Owners, c: Caller, pick: string) {
    NoWriteFailed(a.g, b.g) && Agree(a.g, a.k, c.session) ==>
      (Agree(b.g, b.k, c.session) <==>
       !(FrontDoor(a.g, a.k, c.session, c.agent, c.provider, pick) && Contested(a.g, a.k, c.session)))
  }

  /** Whatever Work was created is the Session's own, interactive and of this objective. */
  ghost predicate CreatedFor(a: Gateway, b: Gateway, session: string, objective: string) {
    && a.works.Keys <= b.works.Keys
    && (forall w :: w in a.works ==> b.works[w] == a.works[w])
    && (forall w :: w in b.works && w !in a.works ==>
          && w == session && b.works[w] == WorkAddress(Some(session), Interactive, None)
          && Logged(b.journal, w, WorkCreated(Some(session), Interactive, objective)))
  }

  lemma CreatedForStays(a: Gateway, b: Gateway, c: Gateway, session: string, objective: string)
    requires CreatedFor(a, b, session, objective) && c.works == b.works && b.journal <= c.journal
    ensures CreatedFor(a, c, session, objective)
  {
    if session in b.works && session !in a.works {
      var event := WorkCreated(Some(session), Interactive, objective);
      var row :| row in b.journal && row.work == session && row.event == event;
      assert row in c.journal;
    }
  }

  ghost predicate TurnStep(a: Owners, b: Owners, c: Caller, pick: string, r: Result<TurnIdentity, TurnError>) {
    TurnFrame(a, b, c, pick) && TurnResult(a, b, c, pick, r) && TurnAgreement(a, b, c, pick)
  }

  // ---------------------------------------------------------------- the Work step

  /** The part of the gateway the checks on the current Run read. */
  predicate SameRuns(a: Gateway, b: Gateway) {
    && a.currentRun == b.currentRun && a.runStates == b.runStates && a.runFields == b.runFields
    && a.approvals == b.approvals && a.uncertain == b.uncertain
  }

  lemma SameRunsSameAnswers(a: Gateway, b: Gateway, k: Kernel, session: string, agent: string, binding: string)
    requires SameRuns(a, b)
    ensures RunOwned(a, k, session, agent, binding) <==> RunOwned(b, k, session, agent, binding)
    ensures RunOwned(a, k, session, agent, binding) ==> (RunUsable(a, k, session) <==> RunUsable(b, k, session))
    ensures Contested(a, k, session) <==> Contested(b, k, session)
  {
    if session in a.currentRun {
      var run := a.currentRun[session];
      assert a.MayMove(session, run, Running) <==> b.MayMove(session, run, Running);
    }
  }

  /** The address of the Session's Work, if there is one, is the Session's own. */
  predicate WorkOpen(g: Gateway, session: string) {
    session in g.works ==> g.works[session].session == Some(session)
  }

  ghost predicate WorkStep(a: Gateway, b: Gateway, session: string, ok: bool) {
    && SameRuns(a, b) && a.bindings == b.bindings && Continues(a, b) && OnlyWork(a, b, session)
    && (ok ==> session in b.works && b.works[session].session == Some(session) && WorkOpen(a, session))
    && (!ok && WorkOpen(a, session) ==> WorkOpen(b, session) && !NoWriteFailed(a, b))
    && (session in a.works ==> a.presence == b.presence)
    && (Unstarted(a, session) ==> Unstarted(b, session))
  }

  /** The kind an existing Work re-states is its own, so only its Session can be refused. */
  lemma WorkResolved(a: Gateway, k: Kernel, session: string, objective: string)
    requires Sound(a, k)
    ensures var kind := if session in a.works then a.works[session].kind else Interactive;
            var (b, ok) := a.CreateWork(session, Some(session), kind, objective);
            WorkStep(a, b, session, ok) && Sound(b, k) && CreatedFor(a, b, session, objective)
  {
    var kind := if session in a.works then a.works[session].kind else Interactive;
    var (b, ok) := a.CreateWork(session, Some(session), kind, objective);
    if session !in a.works {
      NewWork(a, session, Some(session), kind, objective);
      if ok {
        WorkAdded(a, b, k, session, kind);
        assert b.journal[|a.journal|] == Entry(session, WorkCreated(Some(session), kind, objective), []);
      } else {
        WorkUnwritten(a, b, k, session);
      }
    }
  }

  lemma WorkAdded(a: Gateway, b: Gateway, k: Kernel, session: string, kind: SessionKind)
    requires Sound(a, k) && session !in a.works && a.journal <= b.journal && a.writes <= b.writes
    requires b == a.(works := a.works[session := WorkAddress(Some(session), kind, None)], presence := b.presence,
                     journal := b.journal, writes := b.writes)
    requires a.presence - {session} == b.presence - {session} && Get(b.presence, session) == Some(Created)
    ensures WorkStep(a, b, session, true) && Sound(b, k)
  {
    IdsAheadSame(a, b, k.counter);
    assert a.works - {session} == b.works - {session};
  }

  lemma WorkUnwritten(a: Gateway, b: Gateway, k: Kernel, session: string)
    requires Sound(a, k) && session !in a.works && b.writes == a.writes + 1 && !a.disk(a.writes)
    requires b == a.(presence := b.presence, writes := b.writes) && b.presence == a.presence - {session}
    ensures WorkStep(a, b, session, false) && Sound(b, k)
  {
    IdsAheadSame(a, b, k.counter);
    assert a.presence - {session} == b.presence - {session};
  }

  // ---------------------------------------------------------------- the three ways to stop, and the way through

  lemma RefusedAtDoor(a: Owners, c: Caller, pick: string, error: TurnError)
    requires Sound(a.g, a.k) && (c.session == "" || c.agent == "" || c.provider == "")
    requires Choice(a.g.bindings, c.session, c.agent, pick)
    requires error == Cause(a.g, a.k, c.session, c.agent, c.provider, pick)
    ensures TurnStep(a, a, c, pick, Failure(error))
  {
  }

  lemma SameBindingsSameUse(a: Gateway, b: Gateway, session: string, agent: string, provider: string, pick: string)
    requires a.bindings == b.bindings
    ensures BindingUsable(a, session, agent, provider, pick) <==> BindingUsable(b, session, agent, provider, pick)
  {
    SiblingsSame(a, b, pick, session);
  }

  /** The front door of a turn looks the same before and after its Work step. */
  lemma DoorAfterWork(a: Gateway, b: Gateway, k: Kernel, c: Caller, pick: string, ok: bool)
    requires WorkStep(a, b, c.session, ok) && WorkOpen(a, c.session)
    ensures FrontDoor(a, k, c.session, c.agent, c.provider, pick)
            <==> FrontDoor(b, k, c.session, c.agent, c.provider, pick)
    ensures Admissible(a, k, c.session, c.agent, c.provider, pick)
            <==> Admissible(b, k, c.session, c.agent, c.provider, pick)
    ensures Contested(a, k, c.session) <==> Contested(b, k, c.session)
  {
    SameBindingsSameUse(a, b, c.session, c.agent, c.provider, pick);
    SameRunsSameAnswers(a, b, k, c.session, c.agent, pick);
  }

  lemma RefusedAtWork(a: Owners, b: Gateway, c: Caller, pick: string)
    requires WorkStep(a.g, b, c.session, false) && Sound(b, a.k)
    requires c.session != "" && c.agent != "" && c.provider != ""
    requires Choice(a.g.bindings, c.session, c.agent, pick)
    ensures TurnStep(a, Owners(b, a.k), c, pick, Failure(WorkRefused))
  {
    if WorkOpen(a.g, c.session) {
      DoorAfterWork(a.g, b, a.k, c, pick, false);
    }
  }

  /** The Work step does not touch the agreement of the two owners. */
  lemma AgreeAfterWork(a: Gateway, b: Gateway, k: Kernel, session: string, ok: bool)
    requires Sound(a, k) && WorkStep(a, b, session, ok)
    ensures Agree(a, k, session) <==> Agree(b, k, session)
  {
  }

  lemma BindingStepFrame(a: Gateway, b: Gateway, k: Kernel, c: Caller, pick: string, r: Result<Bound, TurnError>)
    requires BindingStep(a, b, c.session, c.agent, c.provider, pick, r)
    ensures Continues(a, b) && OnlyWork(a, b, c.session) && SameRuns(a, b)
    ensures OneBindingChanged(a.bindings, b.bindings, c, pick)
    ensures Agree(a, k, c.session) <==> Agree(b, k, c.session)
  {
    forall other | other in a.bindings && other != pick
      ensures other in b.bindings && b.bindings[other] == a.bindings[other]
    {
      assert other in a.bindings - {pick} && a.bindings[other] == (b.bindings - {pick})[other];
    }
    forall other | other in b.bindings && other != pick ensures other in a.bindings {
      assert other in b.bindings - {pick};
    }
  }

  lemma RefusedAtBinding(a: Owners, g: Gateway, b: Gateway, c: Caller, pick: string, error: TurnError)
    requires Sound(a.g, a.k) && WorkStep(a.g, g, c.session, true) && Sound(b, a.k)
    requires c.session != "" && c.agent != "" && c.provider != ""
    requires BindingStep(g, b, c.session, c.agent, c.provider, pick, Failure(error))
    ensures TurnStep(a, Owners(b, a.k), c, pick, Failure(error))
  {
    DoorAfterWork(a.g, g, a.k, c, pick, true);
    BindingStepFrame(g, b, a.k, c, pick, Failure(error));
    OnlyWorkTransitive(a.g, g, b, c.session);
    AgreeAfterWork(a.g, g, a.k, c.session, true);
    SameRunsSameAnswers(g, b, a.k, c.session, c.agent, pick);
    assert NoWriteFailed(a.g, b) ==> NoWriteFailed(g, b);
  }

  /** The Work and the binding are resolved: `g` after the Work step, `h` after the
      binding step, the kernel untouched. */
  ghost predicate Resolved(a: Owners, g: Gateway, h: Gateway, c: Caller, pick: string, bound: Bound) {
    && Sound(a.g, a.k) && c.session != "" && c.agent != "" && c.provider != ""
    && WorkStep(a.g, g, c.session, true)
    && BindingStep(g, h, c.session, c.agent, c.provider, pick, Success(bound))
    && Ready4Run(Owners(h, a.k), c.session, c.agent, bound)
  }

  /** What the checks on the current Run say, and what agreement there is, carries over. */
  lemma ResolvedView(a: Owners, g: Gateway, h: Gateway, c: Caller, pick: string, bound: Bound)
    requires Resolved(a, g, h, c, pick, bound)
    ensures Continues(a.g, h) && OnlyWork(a.g, h, c.session) && SameRuns(a.g, h)
    ensures FrontDoor(a.g, a.k, c.session, c.agent, c.provider, pick) <==>
            RunOwned(h, a.k, c.session, c.agent, bound.binding)
    ensures Admissible(a.g, a.k, c.session, c.agent, c.provider, pick)
            <==> RunOwned(h, a.k, c.session, c.agent, bound.binding) && RunUsable(h, a.k, c.session)
    ensures Contested(a.g, a.k, c.session) <==> Contested(h, a.k, c.session)
    ensures Agree(a.g, a.k, c.session) <==> Agree(h, a.k, c.session)
    ensures pick == bound.binding && OneBindingChanged(a.g.bindings, h.bindings, c, pick)
  {
    DoorAfterWork(a.g, g, a.k, c, pick, true);
    AgreeAfterWork(a.g, g, a.k, c.session, true);
    BindingStepFrame(g, h, a.k, c, pick, Success(bound));
    OnlyWorkTransitive(a.g, g, h, c.session);
    SameRunsSameAnswers(g, h, a.k, c.session, c.agent, bound.binding);
  }

  lemma ThroughFrame(a: Owners, g: Gateway, h: Gateway, b: Owners, c: Caller, pick: string, bound: Bound)
    requires Resolved(a, g, h, c, pick, bound) && RunFrame(Owners(h, a.k), b, c.session, c.agent, bound)
    ensures TurnFrame(a, b, c, pick)
    ensures NoWriteFailed(a.g, b.g) ==> NoWriteFailed(h, b.g)
  {
    ResolvedView(a, g, h, c, pick, bound);
    OnlyWorkTransitive(a.g, h, b.g, c.session);
  }

  /** After a failed Run step the binding is still usable, so only the Run decides. */
  lemma StillUsable(a: Owners, h: Gateway, b: Owners, c: Caller, pick: string, bound: Bound)
    requires RunFrame(Owners(h, a.k), b, c.session, c.agent, bound)
             && Ready4Run(Owners(h, a.k), c.session, c.agent, bound)
    requires bound.binding != "" && h.bindings[bound.binding].provider == Some(c.provider)
    requires var st := b.g.bindings[bound.binding].state;
             st.Active? || (st.Parked? && !h.SiblingActive(bound.binding, c.session))
    ensures BindingUsable(b.g, c.session, c.agent, c.provider, bound.binding)
  {
    SiblingsSame(h, b.g, bound.binding, c.session);
  }

  lemma RetryAfterFailure(a: Owners, g: Gateway, h: Gateway, b: Owners, c: Caller, pick: string, bound: Bound,
                          error: TurnError)
    requires Resolved(a, g, h, c, pick, bound) && RunFrame(Owners(h, a.k), b, c.session, c.agent, bound)
    requires RunOutcome(Owners(h, a.k), b, c.session, c.agent, bound, Failure(error))
    ensures Admissible(a.g, a.k, c.session, c.agent, c.provider, pick) ==>
            Admissible(b.g, b.k, c.session, c.agent, c.provider, pick)
  {
    ResolvedView(a, g, h, c, pick, bound);
    if Admissible(a.g, a.k, c.session, c.agent, c.provider, pick) {
      StillUsable(a, h, b, c, pick, bound);
    }
  }

  lemma BindingOnFailure(a: Owners, g: Gateway, h: Gateway, b: Owners, c: Caller, pick: string, bound: Bound,
                         error: TurnError)
    requires Resolved(a, g, h, c, pick, bound) && RunFrame(Owners(h, a.k), b, c.session, c.agent, bound)
    requires RunOutcome(Owners(h, a.k), b, c.session, c.agent, bound, Failure(error))
    ensures BindingAfterFailure(a, b, c, pick, error)
  {
    ResolvedView(a, g, h, c, pick, bound);
  }

  function IdentityOf(c: Caller, bound: Bound, run: string): TurnIdentity {
    TurnIdentity(CanonicalOwner(c.session, CanonicalWorkId(c.session), bound.binding), run)
  }

  /** All three steps were taken: the result of the Run step is the result of the turn. */
  lemma Through(a: Owners, g: Gateway, h: Gateway, b: Owners, c: Caller, pick: string, bound: Bound,
                run: Result<string, TurnError>)
    requires Resolved(a, g, h, c, pick, bound)
    requires RunStep(Owners(h, a.k), b, c.session, c.agent, bound, run)
    ensures TurnStep(a, b, c, pick,
                     if run.Success? then Success(IdentityOf(c, bound, run.value)) else Failure(run.error))
  {
    ResolvedView(a, g, h, c, pick, bound);
    ThroughFrame(a, g, h, b, c, pick, bound);
    if run.Failure? {
      BindingOnFailure(a, g, h, b, c, pick, bound, run.error);
      RetryAfterFailure(a, g, h, b, c, pick, bound, run.error);
    }
  }
}
