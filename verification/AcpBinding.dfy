/** The binding step of an ACP turn: find, create or re-activate the one agent binding. */
module AcpBinding {
  import opened Basics
  import opened Lifecycle
  import opened WorkGatewayModel
  import opened ExecutionKernelModel
  import opened AcpAdmission

  datatype Bound = Bound(binding: string, activatedHere: bool)

  /** The binding step changes one binding and nothing else. */
  ghost predicate BindingFrame(a: Gateway, b: Gateway, id: string) {
    && a.works == b.works && a.presence == b.presence && a.currentRun == b.currentRun && a.runStates == b.runStates
    && a.runFields == b.runFields && a.approvals == b.approvals && a.uncertain == b.uncertain
    && a.journal <= b.journal && a.writes <= b.writes && a.disk == b.disk && a.link == b.link
    && a.bindings - {id} == b.bindings - {id}
  }

  /** What the binding step guarantees, given the binding `pick` it found. */
  ghost predicate BindingStep(a: Gateway, b: Gateway, session: string, agent: string, provider: string, pick: string,
                              r: Result<Bound, TurnError>)
  {
    && Choice(a.bindings, session, agent, pick) && BindingFrame(a, b, pick)
    && (pick in a.bindings ==> pick in b.bindings && SameOwner(a.bindings[pick], b.bindings[pick]))
    && (pick in a.bindings && !Matches(a, pick, session, agent) ==> a.bindings == b.bindings)
    && (pick in b.bindings && pick !in a.bindings ==> Matches(b, pick, session, agent) && b.bindings[pick].id == pick)
    && Choice(b.bindings, session, agent, pick)
    && (BindingUsable(a, session, agent, provider, pick) ==> BindingUsable(b, session, agent, provider, pick))
    && (NoWriteFailed(a, b) ==> (r.Success? <==> BindingUsable(a, session, agent, provider, pick)))
    && (r.Failure? ==>
        && r.error == (if Conflicting(a, session, agent, provider, pick) then ProviderSessionConflict
                       else BindingRefused)
        && LeftParked(a.bindings, b.bindings, session, agent, pick))
    && (r.Success? ==>
        && BindingUsable(a, session, agent, provider, pick)
        && r.value.binding == pick && Matches(b, pick, session, agent)
        && b.bindings[pick].state.Active? && b.bindings[pick].provider == Some(provider)
        && (r.value.activatedHere <==> !(pick in a.bindings && a.bindings[pick].state.Active?))
        && (r.value.activatedHere ==> !b.SiblingActive(pick, session)))
  }

  /** A failed binding step leaves a binding that was there alone, and a new one parked. */
  predicate LeftParked(a: map<string, AgentBinding>, b: map<string, AgentBinding>, session: string, agent: string,
                       pick: string)
  {
    if pick in a then a == b
    else pick in b ==> b[pick] == AgentBinding(pick, session, session, agent, None, Parked)
  }

  lemma SiblingsSame(a: Gateway, b: Gateway, id: string, session: string)
    requires a.bindings - {id} == b.bindings - {id}
    ensures a.SiblingActive(id, session) <==> b.SiblingActive(id, session)
  {
    if a.SiblingActive(id, session) {
      var other :| other in a.bindings && other != id && a.bindings[other].state.Active?
          && a.bindings[other].session == session;
      assert other in a.bindings - {id} && b.bindings[other] == (b.bindings - {id})[other];
    }
    if b.SiblingActive(id, session) {
      var other :| other in b.bindings && other != id && b.bindings[other].state.Active?
          && b.bindings[other].session == session;
      assert other in b.bindings - {id} && a.bindings[other] == (a.bindings - {id})[other];
    }
  }

  /** Re-activating a binding the Work already has. */
  lemma ActivateExisting(a: Gateway, k: Kernel, session: string, agent: string, provider: string, id: string,
                         move: BindingMove)
    requires Sound(a, k) && Matches(a, id, session, agent) && id != "" && !move.Suspend?
    requires var st := a.bindings[id].state; st.Parked? || st.Resuming? || (st.Active? && a.bindings[id].provider.None?)
    ensures var (b, ok) := a.MoveBinding(id, move, Some(provider));
            && Sound(b, k)
            && BindingStep(a, b, session, agent, provider, id,
                           if ok then Success(Bound(id, !a.bindings[id].state.Active?)) else Failure(BindingRefused))
  {
    var (b, ok) := a.MoveBinding(id, move, Some(provider));
    if ok {
      Activated(a, b, k, session, agent, provider, id);
    } else {
      assert b.writes > a.writes ==> b.writes == a.writes + 1 && !a.disk(a.writes);
      NotActivated(a, b, k, session, agent, provider, id);
    }
  }

  lemma Activated(a: Gateway, b: Gateway, k: Kernel, session: string, agent: string, provider: string, id: string)
    requires Sound(a, k) && Matches(a, id, session, agent) && id != "" && !a.SiblingActive(id, session)
    requires var st := a.bindings[id].state; st.Parked? || st.Resuming? || (st.Active? && a.bindings[id].provider.None?)
    requires a.journal <= b.journal && a.writes <= b.writes
    requires b == a.(bindings := a.bindings[id := a.bindings[id].(state := Active, provider := Some(provider))],
                     journal := b.journal, writes := b.writes)
    ensures Sound(b, k)
    ensures BindingStep(a, b, session, agent, provider, id, Success(Bound(id, !a.bindings[id].state.Active?)))
  {
    assert a.bindings - {id} == b.bindings - {id};
    BindingRewritten(a, b, k, id);
    SiblingsSame(a, b, id, session);
  }

  lemma NotActivated(a: Gateway, b: Gateway, k: Kernel, session: string, agent: string, provider: string, id: string)
    requires Sound(a, k) && Matches(a, id, session, agent) && b == a.(writes := b.writes) && a.writes <= b.writes
    requires a.bindings[id].state.Active? ==> a.bindings[id].provider.None?
    requires a.SiblingActive(id, session) || !NoWriteFailed(a, b)
    ensures Sound(b, k) && BindingStep(a, b, session, agent, provider, id, Failure(BindingRefused))
  {
    IdsAheadSame(a, b, k.counter);
    SiblingsSame(a, b, id, session);
  }

  /** Replacing a binding by one of the same owner keeps the structural facts. */
  lemma BindingRewritten(a: Gateway, b: Gateway, k: Kernel, id: string)
    requires Sound(a, k) && id in a.bindings && id in b.bindings && SameOwner(a.bindings[id], b.bindings[id])
    requires BindingFrame(a, b, id)
    ensures Sound(b, k)
  {
    IdsAheadSame(a, b, k.counter);
    forall i | i in b.bindings ensures i in a.bindings && SameOwner(a.bindings[i], b.bindings[i]) {
      assert i != id ==> i in b.bindings - {id} && a.bindings[i] == (a.bindings - {id})[i];
    }
  }

  /** What the gateway mentions of Runs did not change. */
  lemma IdsAheadSame(a: Gateway, b: Gateway, counter: nat)
    requires IdsAhead(a, counter)
    requires a.currentRun == b.currentRun && a.runStates == b.runStates && a.runFields == b.runFields
    ensures IdsAhead(b, counter)
  {
    forall n: nat, w | n > counter ensures Unused(b, w, MintedId(n)) {
      assert Unused(a, w, MintedId(n));
    }
  }

  /** Nothing has to be written: the binding is already active for this provider
      session, or it cannot be used at all. */
  lemma LeaveExisting(a: Gateway, k: Kernel, session: string, agent: string, provider: string, id: string,
                      error: TurnError)
    requires Sound(a, k) && Matches(a, id, session, agent)
    requires error == if Conflicting(a, session, agent, provider, id) then ProviderSessionConflict else BindingRefused
    requires id == "" || a.bindings[id].state.Dead? || a.bindings[id].state.Unavailable?
             || (a.bindings[id].state.Active? && a.bindings[id].provider.Some?)
    ensures var usable := id != "" && a.bindings[id].state.Active? && a.bindings[id].provider == Some(provider);
            BindingStep(a, a, session, agent, provider, id,
                        if usable then Success(Bound(id, false)) else Failure(error))
  {
  }

  /** The binding a turn makes for an agent the Work has no binding for. */
  function NewBinding(session: string, agent: string): AgentBinding {
    AgentBinding(CanonicalBindingId(session, CanonicalWorkId(session), agent), session, session, agent, None, Parked)
  }

  /** The parked binding is there. */
  lemma CreateParked(a: Gateway, k: Kernel, b: Gateway, session: string, agent: string, provider: string)
    requires Sound(a, k) && session in a.works && a.works[session].session == Some(session)
    requires NoneFor(a.bindings, session, agent)
    requires (b, true) == a.CreateBinding(NewBinding(session, agent))
    ensures var id := NewBinding(session, agent).id;
            && Sound(b, k) && BindingFrame(a, b, id) && id !in a.bindings
            && Matches(b, id, session, agent) && b.bindings[id].state.Parked?
            && (BindingUsable(a, session, agent, provider, id) <==> BindingUsable(b, session, agent, provider, id))
  {
    var id := NewBinding(session, agent).id;
    assert b.bindings == a.bindings[id := NewBinding(session, agent)];
    assert a.bindings - {id} == b.bindings - {id};
    IdsAheadSame(a, b, k.counter);
    SiblingsSame(a, b, id, session);
    assert id != "" by {
      assert |id| >= 12;
    }
  }

  lemma CreateRefused(a: Gateway, k: Kernel, b: Gateway, session: string, agent: string, provider: string)
    requires Sound(a, k) && session in a.works && a.works[session].session == Some(session)
    requires NoneFor(a.bindings, session, agent)
    requires (b, false) == a.CreateBinding(NewBinding(session, agent))
    ensures Sound(b, k)
    ensures BindingStep(a, b, session, agent, provider, NewBinding(session, agent).id, Failure(BindingRefused))
  {
    var id := NewBinding(session, agent).id;
    assert b.bindings == a.bindings;
    IdsAheadSame(a, b, k.counter);
    SiblingsSame(a, b, id, session);
    if id !in a.bindings {
      assert b.writes == a.writes + 1 && !a.disk(a.writes);
    }
  }

  /** A Work without a binding for this agent gets one, parked, and then activates it. */
  lemma CreateAndActivate(a: Gateway, b: Gateway, k: Kernel, session: string, agent: string, provider: string)
    requires Sound(a, k) && session in a.works && a.works[session].session == Some(session)
    requires NoneFor(a.bindings, session, agent)
    requires (b, true) == a.CreateBinding(NewBinding(session, agent))
    ensures var id := NewBinding(session, agent).id;
            var (c, ok) := b.MoveBinding(id, Activate, Some(provider));
            && Sound(c, k)
            && BindingStep(a, c, session, agent, provider, id,
                           if ok then Success(Bound(id, true)) else Failure(BindingRefused))
  {
    var id := NewBinding(session, agent).id;
    var (c, ok) := b.MoveBinding(id, Activate, Some(provider));
    CreateParked(a, k, b, session, agent, provider);
    assert id != "" by {
      assert |id| >= 12;
    }
    ActivateExisting(b, k, session, agent, provider, id, Activate);
    assert a.bindings - {id} == c.bindings - {id};
    assert NoWriteFailed(a, c) ==> NoWriteFailed(b, c);
  }

  method ResolveBinding(gateway: WorkGateway, ghost kernel: Kernel, session: string, agent: string, provider: string)
    returns (r: Result<Bound, TurnError>, ghost pick: string)
    requires Sound(gateway.Now(), kernel)
    requires session in gateway.works && gateway.works[session].session == Some(session)
    modifies gateway
    ensures BindingStep(old(gateway.Now()), gateway.Now(), session, agent, provider, pick, r)
    ensures Sound(gateway.Now(), kernel)
  {
    ghost var before := gateway.Now();
    var work := CanonicalWorkId(session);
    if id :|
      id in gateway.bindings && gateway.bindings[id].work == work && gateway.bindings[id].session == session
      && gateway.bindings[id].agent == agent
    {
      var b := gateway.bindings[id];
      if id == "" {
        LeaveExisting(before, kernel, session, agent, provider, id, BindingRefused);
        return Failure(BindingRefused), id;
      }
      var ok;
      match b.state {
        case Active =>
          if b.provider.Some? && b.provider.value != provider {
            LeaveExisting(before, kernel, session, agent, provider, id, ProviderSessionConflict);
            return Failure(ProviderSessionConflict), id;
          }
          if b.provider.Some? {
            LeaveExisting(before, kernel, session, agent, provider, id, BindingRefused);
            return Success(Bound(id, false)), id;
          }
          ActivateExisting(before, kernel, session, agent, provider, id, Activate);
          ok := gateway.MoveBinding(id, Activate, Some(provider));
        case Parked =>
          ActivateExisting(before, kernel, session, agent, provider, id, Activate);
          ok := gateway.MoveBinding(id, Activate, Some(provider));
        case Resuming =>
          ActivateExisting(before, kernel, session, agent, provider, id, Resume);
          ok := gateway.MoveBinding(id, Resume, Some(provider));
        case Dead =>
          LeaveExisting(before, kernel, session, agent, provider, id, BindingRefused);
          return Failure(BindingRefused), id;
        case Unavailable =>
          LeaveExisting(before, kernel, session, agent, provider, id, BindingRefused);
          return Failure(BindingRefused), id;
      }
      return (if ok then Success(Bound(id, !b.state.Active?)) else Failure(BindingRefused)), id;
    }
    assert NoneFor(before.bindings, session, agent) by {
      forall other ensures !ForAgent(before.bindings, other, session, agent) {
        assert before.bindings == gateway.bindings;
      }
    }
    var id := CanonicalBindingId(session, work, agent);
    var ok := gateway.CreateBinding(AgentBinding(id, session, work, agent, None, Parked));
    if !ok {
      CreateRefused(before, kernel, gateway.Now(), session, agent, provider);
      return Failure(BindingRefused), id;
    }
    CreateAndActivate(before, gateway.Now(), kernel, session, agent, provider);
    ok := gateway.MoveBinding(id, Activate, Some(provider));
    return (if ok then Success(Bound(id, true)) else Failure(BindingRefused)), id;
  }
}
