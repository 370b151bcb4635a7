/** Whole runs of the Work/Run/Binding spine: any sequence of ACP turns, end-of-turn
    transitions, scheduled dispatches (complete or interrupted), bindings registered or moved
    by other callers, and changes of the approval gates, by any number of Sessions and agents. */
module SpineRuns {
  import opened Basics
  import opened Lifecycle
  import opened SessionVaultModel
  import opened WorkGatewayModel
  import opened ExecutionKernelModel
  import opened AcpAdmission
  import opened AcpBinding
  import opened AcpTurn
  import opened AcpCompose
  import opened AcpTransition
  import opened Dispatch
  import opened Convergence

  datatype SpineAct =
    | Turn(caller: Caller, pick: string, result: Result<TurnIdentity, TurnError>)
    | RunTransition(work: string, run: string, to: State)
    | Dispatching(occurrence: Occurrence, steps: nat)
    | BindingRegistered(registered: AgentBinding)
    | BindingMoved(binding: string, move: BindingMove, provider: Option<string>)
    | GatesChanged

  function Both(s: Spine): Owners {
    Owners(s.g, s.k)
  }

  /** One call of one owner of the spine. A turn is whatever its contract allows; bindings are
      also registered and moved over the wire, with any arguments. */
  ghost predicate SpineNext(a: Spine, act: SpineAct, b: Spine) {
    match act
    case Turn(c, pick, r) => a.v == b.v && TurnStep(Both(a), Both(b), c, pick, r)
    case RunTransition(work, run, to) => a.v == b.v && Both(b) == Handoff(Both(a), work, run, to).0
    case Dispatching(occ, steps) => occ.Compiles() && steps <= STEPS && b == Attempt(a, occ, steps).0
    case BindingRegistered(binding) => a.v == b.v && a.k == b.k && b.g == a.g.CreateBinding(binding).0
    case BindingMoved(id, move, provider) => a.v == b.v && a.k == b.k && b.g == a.g.MoveBinding(id, move, provider).0
    case GatesChanged =>
      && a.v == b.v && b.g == a.g.(approvals := b.g.approvals, uncertain := b.g.uncertain)
      && b.k == a.k.(runs := b.k.runs) && SamePhases(a.k.runs, b.k.runs)
  }

  ghost predicate SamePhases(a: map<string, Run>, b: map<string, Run>) {
    a.Keys == b.Keys && forall run :: run in a ==> b[run] == a[run].(pendingApproval := b[run].pendingApproval)
  }

  // ---------------------------------------------------------------- the invariant

  /** A Run named after an occurrence is only ever the current Run of that occurrence's Work. */
  predicate NamedRun(work: string, run: string) {
    |run| >= 15 && run[..15] == "automation-run:" ==> work == "automation-work:" + run[15..]
  }

  ghost predicate NamedRunsPlaced(currentRun: map<string, string>) {
    forall w :: w in currentRun ==> NamedRun(w, currentRun[w])
  }

  ghost predicate AllUnstarted(g: Gateway) {
    forall w :: Unstarted(g, w)
  }

  /** The context names one agent and one binding. */
  predicate Names(context: Context, agent: string, binding: string) {
    context.Readable? && context.agent == Some(agent) && context.binding == Some(binding)
  }

  /** The Work `w` belongs to the Session `w`, as the Works of turns do. */
  predicate TurnWork(g: Gateway, w: string) {
    w in g.works && g.works[w].session == Some(w)
  }

  /** The current Run of a turn's Work is known and names the agent and binding it is for. */
  predicate RunNamed(g: Gateway, k: Kernel, w: string) {
    w in g.currentRun && TurnWork(g, w) ==>
      && g.currentRun[w] in k.runs
      && var context := k.runs[g.currentRun[w]].context;
         context.Readable? && context.agent.Some? && context.binding.Some?
  }

  ghost predicate AllRunsNamed(g: Gateway, k: Kernel) {
    forall w :: RunNamed(g, k, w)
  }

  ghost predicate Inv(s: Spine) {
    GatewayInv(s.g, s.k)
  }

  ghost predicate GatewayInv(g: Gateway, k: Kernel) {
    Sound(g, k) && NamedRunsPlaced(g.currentRun) && AllUnstarted(g) && AllRunsNamed(g, k)
  }

  /** What later states owe to earlier ones. */
  ghost predicate Follows(a: Spine, b: Spine) {
    Continues(a.g, b.g) && Carries(a.k, b.k) && (forall w :: FinishedKept(a.g, b.g, w))
  }

  lemma InvInitially(vaultDisk: nat -> bool, disk: nat -> bool, link: nat -> Fields)
    ensures Inv(Spine(Vault(map[], 0, vaultDisk), EmptyGateway(disk, link), Kernel(map[], 0)))
  {
  }

  lemma MintedIsNotNamed(n: nat, work: string)
    ensures NamedRun(work, MintedId(n))
  {
    assert MintedId(n)[0] == 'e';
  }

  lemma TurnKeepsInv(a: Spine, c: Caller, pick: string, r: Result<TurnIdentity, TurnError>, b: Spine)
    requires Inv(a) && SpineNext(a, Turn(c, pick, r), b)
    ensures Inv(b) && Follows(a, b)
  {
    MintedIsNotNamed(a.k.counter + 1, c.session);
    forall w
      ensures Unstarted(b.g, w) && FinishedKept(a.g, b.g, w)
              && (w in b.g.currentRun ==> NamedRun(w, b.g.currentRun[w]))
    {
      OtherWorkSame(a.g, b.g, c.session, w);
      assert Unstarted(a.g, w);
    }
    forall w ensures RunNamed(b.g, b.k, w) {
      OtherWorkSame(a.g, b.g, c.session, w);
      assert RunNamed(a.g, a.k, w);
      TurnKeepsName(Both(a), Both(b), c, pick, w);
    }
  }

  lemma TurnKeepsName(a: Owners, b: Owners, c: Caller, pick: string, w: string)
    requires RunsPlaced(a.g.works, a.g.currentRun) && Continues(a.g, b.g) && Carries(a.k, b.k)
    requires w != c.session ==> Get(b.g.currentRun, w) == Get(a.g.currentRun, w)
    requires RunPointer(a, b, c.session, c.agent, pick) && RunNamed(a.g, a.k, w)
    ensures RunNamed(b.g, b.k, w)
  {
    if w in a.g.currentRun && Get(b.g.currentRun, w) == Get(a.g.currentRun, w) && TurnWork(b.g, w) {
      assert TurnWork(a.g, w);
      assert SameRun(a.k.runs[a.g.currentRun[w]], b.k.runs[a.g.currentRun[w]]);
    }
  }

  lemma OtherWorkSame(a: Gateway, b: Gateway, work: string, w: string)
    requires OnlyWork(a, b, work)
    ensures w != work ==> Get(b.currentRun, w) == Get(a.currentRun, w) && Get(b.presence, w) == Get(a.presence, w)
                          && forall run :: Get(b.runStates, (w, run)) == Get(a.runStates, (w, run))
  {
    if w != work {
      assert Get(a.currentRun, w) == Get(a.currentRun - {work}, w)
          && Get(b.currentRun, w) == Get(b.currentRun - {work}, w);
      assert Get(a.presence, w) == Get(a.presence - {work}, w) && Get(b.presence, w) == Get(b.presence - {work}, w);
    }
  }

  ghost predicate GatewayFollows(a: Gateway, b: Gateway) {
    Continues(a, b) && forall w :: FinishedKept(a, b, w)
  }

  lemma RecordKeepsInv(g: Gateway, k: Kernel, work: string, run: string, to: State)
    requires GatewayInv(g, k)
    ensures var h := g.RecordTransition(work, run, to).0; GatewayInv(h, k) && GatewayFollows(g, h)
  {
    var (h, ok) := g.RecordTransition(work, run, to);
    if ok {
      forall n: nat, w | n > k.counter ensures Unused(h, w, MintedId(n)) {
        assert Unused(g, w, MintedId(n));
      }
      forall w ensures Unstarted(h, w) && RunNamed(h, k, w) && FinishedKept(g, h, w) {
        assert Unstarted(g, w) && RunNamed(g, k, w);
      }
    } else {
      SameProjections(g, h, k);
    }
  }

  /** Nothing but the journal and the write counter changed. */
  lemma SameProjections(g: Gateway, h: Gateway, k: Kernel)
    requires GatewayInv(g, k) && g.journal <= h.journal && g.writes <= h.writes
    requires h == g.(journal := h.journal, writes := h.writes)
    ensures GatewayInv(h, k) && GatewayFollows(g, h)
  {
    IdsAheadSame(g, h, k.counter);
    forall w ensures Unstarted(h, w) && RunNamed(h, k, w) {
      assert Unstarted(g, w) && RunNamed(g, k, w);
    }
  }

  lemma PhaseKeepsInv(g: Gateway, k: Kernel, run: string, to: State)
    requires GatewayInv(g, k)
    ensures var l := k.Transition(run, to).0; GatewayInv(g, l) && Carries(k, l)
  {
    if k.MayMove(run, to) {
      PhaseMoved(k, k.Transition(run, to).0, run, to);
      forall w ensures RunNamed(g, k.Transition(run, to).0, w) {
        assert RunNamed(g, k, w);
      }
    }
  }

  lemma CreateWorkKeepsInv(g: Gateway, k: Kernel, work: string, session: Option<string>, kind: SessionKind,
                           objective: string)
    requires GatewayInv(g, k)
    ensures var h := g.CreateWork(work, session, kind, objective).0; GatewayInv(h, k) && GatewayFollows(g, h)
  {
    var h := g.CreateWork(work, session, kind, objective).0;
    if work !in g.works && (kind.Automation? ==> session.Some?) {
      NewWork(g, work, session, kind, objective);
      if g.disk(g.writes) {
        AddressesKeepInv(g, h, k, work);
      } else {
        PresenceKeepsInv(g, h, k, work);
      }
    }
  }

  lemma StampKeepsInv(g: Gateway, k: Kernel, work: string, stamp: Provenance, compiled: string)
    requires GatewayInv(g, k)
    ensures var h := g.StampProvenance(work, stamp, compiled).0; GatewayInv(h, k) && GatewayFollows(g, h)
  {
    var (h, ok) := g.StampProvenance(work, stamp, compiled);
    if ok {
      AddressesKeepInv(g, h, k, work);
    } else {
      SameProjections(g, h, k);
    }
  }

  /** A Work was added, freshly created, or an address changed without changing its owner. */
  lemma AddressesKeepInv(g: Gateway, h: Gateway, k: Kernel, work: string)
    requires GatewayInv(g, k) && WorksKept(g.works, h.works)
    requires h == g.(works := h.works, presence := h.presence, journal := h.journal, writes := h.writes)
    requires g.journal <= h.journal && g.writes <= h.writes
    requires h.presence == g.presence || h.presence == g.presence[work := Created]
    ensures GatewayInv(h, k) && GatewayFollows(g, h)
  {
    AddressesKeepPlaces(g.works, h.works, g.currentRun, g.bindings);
    IdsAheadSame(g, h, k.counter);
    forall w ensures Unstarted(h, w) && RunNamed(h, k, w) {
      assert Unstarted(g, w) && RunNamed(g, k, w);
    }
  }

  lemma AddressesKeepPlaces(works: map<string, WorkAddress>, later: map<string, WorkAddress>,
                            currentRun: map<string, string>, bindings: map<string, AgentBinding>)
    requires WorksKept(works, later) && RunsPlaced(works, currentRun) && BindingsPlaced(works, bindings)
    ensures RunsPlaced(later, currentRun) && BindingsPlaced(later, bindings)
  {
  }

  /** A Work that could not be written is withdrawn again. */
  lemma PresenceKeepsInv(g: Gateway, h: Gateway, k: Kernel, work: string)
    requires GatewayInv(g, k) && h == g.(presence := g.presence - {work}, writes := h.writes) && g.writes <= h.writes
    requires work !in g.works
    ensures GatewayInv(h, k) && GatewayFollows(g, h)
  {
    IdsAheadSame(g, h, k.counter);
    forall w ensures Unstarted(h, w) && RunNamed(h, k, w) {
      assert Unstarted(g, w) && RunNamed(g, k, w);
    }
  }

  /** The Work of an occurrence exists and is of the automation's Session. */
  predicate OwnedByOccurrence(g: Gateway, occ: Occurrence) {
    occ.WorkId() in g.works && g.works[occ.WorkId()].session == Some(occ.SessionId())
  }

  /** A Work without a current Run is pointed at the Run named after its own occurrence. */
  lemma BindKeepsInv(g: Gateway, k: Kernel, occ: Occurrence)
    requires GatewayInv(g, k) && OwnedByOccurrence(g, occ) && occ.WorkId() !in g.currentRun
    ensures var h := g.BindExecution(occ.WorkId(), occ.RunId()).0; GatewayInv(h, k) && GatewayFollows(g, h)
  {
    var work, run := occ.WorkId(), occ.RunId();
    var suffix := occ.automation + ":" + occ.id;
    assert run == "automation-run:" + suffix && work == "automation-work:" + suffix;
    assert run[..15] == "automation-run:" && run[15..] == suffix;
    assert occ.SessionId()[11] == 's' && work[11] == 'w';
    BindNamed(g, k, work, run);
  }

  lemma BindNamed(g: Gateway, k: Kernel, work: string, run: string)
    requires GatewayInv(g, k) && work !in g.currentRun && !TurnWork(g, work)
    requires |run| >= 15 && run[..15] == "automation-run:" && work == "automation-work:" + run[15..]
    ensures var h := g.BindExecution(work, run).0; GatewayInv(h, k) && GatewayFollows(g, h)
  {
    var h := g.BindExecution(work, run).0;
    if h.journal == g.journal {
      SameProjections(g, h, k);
    } else {
      FirstLinkKeeps(g, h, k, work, run);
    }
  }

  lemma FirstLinkKeeps(g: Gateway, h: Gateway, k: Kernel, work: string, run: string)
    requires GatewayInv(g, k) && work in g.works && work !in g.currentRun && !TurnWork(g, work)
    requires |run| >= 15 && run[..15] == "automation-run:" && work == "automation-work:" + run[15..]
    requires g.journal <= h.journal && g.writes <= h.writes
    requires h == g.(currentRun := g.currentRun[work := run], runStates := h.runStates, runFields := h.runFields,
                     journal := h.journal, writes := h.writes)
    requires h.runStates == g.runStates || h.runStates == g.runStates[(work, run) := Ready]
    requires h.runFields == g.runFields[(work, run) := Described(h.runFields, (work, run))]
    ensures GatewayInv(h, k) && GatewayFollows(g, h)
  {
    forall n: nat, w | n > k.counter ensures Unused(h, w, MintedId(n)) {
      assert Unused(g, w, MintedId(n));
      assert run[0] == run[..15][0] == 'a' && MintedId(n)[0] == 'e';
    }
    forall v, w | v in h.currentRun && w in h.currentRun && h.currentRun[v] == h.currentRun[w] ensures v == w {
      assert NamedRun(v, h.currentRun[v]) && NamedRun(w, h.currentRun[w]);
    }
    forall w ensures Unstarted(h, w) && RunNamed(h, k, w) && FinishedKept(g, h, w) {
      assert Unstarted(g, w) && RunNamed(g, k, w);
    }
  }

  lemma BeginNamedKeepsInv(g: Gateway, k: Kernel, id: string, session: string, objective: string, context: Context)
    requires GatewayInv(g, k) && |id| > 0 && id[0] == 'a'
    ensures var l := k.BeginNamed(id, session, objective, context); GatewayInv(g, l) && Carries(k, l)
  {
    var l := k.BeginNamed(id, session, objective, context);
    forall n: nat | n > l.counter ensures MintedId(n) !in l.runs {
      assert MintedId(n) !in k.runs && MintedId(n)[0] == 'e';
    }
    forall w ensures RunNamed(g, l, w) {
      assert RunNamed(g, k, w);
    }
  }

  lemma StepKeepsInv(s: Spine, occ: Occurrence, n: nat)
    requires Inv(s) && occ.Compiles() && (n >= 2 ==> OwnedByOccurrence(s.g, occ))
    ensures var t := Step(s, occ, n).0; Inv(t) && Follows(s, t)
  {
    match n
    case 0 =>
    case 1 =>
      CreateWorkKeepsInv(s.g, s.k, occ.WorkId(), Some(occ.SessionId()), Automation, occ.compiled.value.objective);
    case 2 => StampKeepsInv(s.g, s.k, occ.WorkId(), occ.Stamp(), occ.compiled.value.text);
    case 3 =>
      assert occ.RunId()[0] == 'a';
      BeginNamedKeepsInv(s.g, s.k, occ.RunId(), occ.SessionId(), occ.compiled.value.objective, occ.RunContext());
    case 4 =>
      if occ.WorkId() !in s.g.currentRun {
        BindKeepsInv(s.g, s.k, occ);
      }
    case _ =>
      if occ.RunId() in s.k.runs {
        RecordKeepsInv(s.g, s.k, occ.WorkId(), occ.RunId(), WorkStateForPhase(s.k.runs[occ.RunId()].phase));
      }
  }

  /** A dispatch that got past its second step goes on with the Work of the automation's Session. */
  lemma {:induction false} AttemptOwned(s: Spine, occ: Occurrence, n: nat)
    requires occ.Compiles() && n >= 2 && Attempt(s, occ, n).1
    ensures OwnedByOccurrence(Attempt(s, occ, n).0.g, occ)
  {
    if n > 2 {
      AttemptOwned(s, occ, n - 1);
      StepAdds(Attempt(s, occ, n - 1).0, occ, n - 1);
    } else {
      assert Attempt(s, occ, 2) == Step(Attempt(s, occ, 1).0, occ, 1);
    }
  }

  lemma {:induction false} AttemptKeepsInv(s: Spine, occ: Occurrence, n: nat)
    requires Inv(s) && occ.Compiles()
    ensures var t := Attempt(s, occ, n).0; Inv(t) && Follows(s, t)
  {
    if n > 0 {
      AttemptKeepsInv(s, occ, n - 1);
      var (t, ok) := Attempt(s, occ, n - 1);
      if ok {
        if n > 2 {
          AttemptOwned(s, occ, n - 1);
        }
        StepKeepsInv(t, occ, n - 1);
        FollowsTransitive(s, t, Step(t, occ, n - 1).0);
      }
    }
  }

  lemma FollowsTransitive(a: Spine, b: Spine, c: Spine)
    requires Follows(a, b) && Follows(b, c)
    ensures Follows(a, c)
  {
    forall w ensures FinishedKept(a.g, c.g, w) {
      assert FinishedKept(a.g, b.g, w) && FinishedKept(b.g, c.g, w);
    }
  }

  lemma MoveKeepsInv(g: Gateway, k: Kernel, id: string, move: BindingMove, provider: Option<string>)
    requires GatewayInv(g, k)
    ensures var h := g.MoveBinding(id, move, provider).0; GatewayInv(h, k) && GatewayFollows(g, h)
  {
    var (h, ok) := g.MoveBinding(id, move, provider);
    if ok {
      assert g.bindings - {id} == h.bindings - {id};
      BindingRewritten(g, h, k, id);
      OtherProjectionsKeep(g, h, k);
    } else {
      SameProjections(g, h, k);
    }
  }

  lemma RegisterKeepsInv(g: Gateway, k: Kernel, b: AgentBinding)
    requires GatewayInv(g, k)
    ensures var h := g.CreateBinding(b).0; GatewayInv(h, k) && GatewayFollows(g, h)
  {
    var (h, ok) := g.CreateBinding(b);
    if ok {
      OtherProjectionsKeep(g, h, k);
    } else {
      SameProjections(g, h, k);
    }
  }

  /** Only bindings changed. */
  lemma OtherProjectionsKeep(g: Gateway, h: Gateway, k: Kernel)
    requires GatewayInv(g, k) && BindingsPlaced(h.works, h.bindings) && BindingsKept(g.bindings, h.bindings)
    requires g.journal <= h.journal && g.writes <= h.writes
    requires h == g.(bindings := h.bindings, journal := h.journal, writes := h.writes)
    ensures GatewayInv(h, k) && GatewayFollows(g, h)
  {
    IdsAheadSame(g, h, k.counter);
    forall w ensures Unstarted(h, w) && RunNamed(h, k, w) {
      assert Unstarted(g, w) && RunNamed(g, k, w);
    }
  }

  lemma GatesKeepInv(a: Spine, b: Spine)
    requires Inv(a) && SpineNext(a, GatesChanged, b)
    ensures Inv(b) && Follows(a, b)
  {
    IdsAheadSame(a.g, b.g, a.k.counter);
    forall w ensures Unstarted(b.g, w) && RunNamed(b.g, b.k, w) {
      assert Unstarted(a.g, w) && RunNamed(a.g, a.k, w);
    }
  }

  lemma SpineNextKeepsInv(a: Spine, act: SpineAct, b: Spine)
    requires Inv(a) && SpineNext(a, act, b)
    ensures Inv(b) && Follows(a, b)
  {
    match act
    case Turn(c, pick, r) => TurnKeepsInv(a, c, pick, r, b);
    case RunTransition(work, run, to) =>
      RecordKeepsInv(a.g, a.k, work, run, to);
      PhaseKeepsInv(a.g.RecordTransition(work, run, to).0, a.k, run, PhaseForWorkState(to));
    case Dispatching(occ, steps) => AttemptKeepsInv(a, occ, steps);
    case BindingRegistered(binding) => RegisterKeepsInv(a.g, a.k, binding);
    case BindingMoved(id, move, provider) => MoveKeepsInv(a.g, a.k, id, move, provider);
    case GatesChanged => GatesKeepInv(a, b);
  }

  // ---------------------------------------------------------------- whole runs

  ghost predicate SpineTrace(states: seq<Spine>, acts: seq<SpineAct>) {
    && |states| == |acts| + 1 && Inv(states[0])
    && forall i :: 0 <= i < |acts| ==> SpineNext(states[i], acts[i], states[i + 1])
  }

  lemma {:induction false} Along(states: seq<Spine>, acts: seq<SpineAct>, i: nat, j: nat)
    requires SpineTrace(states, acts) && i <= j <= |acts|
    ensures Inv(states[j]) && Follows(states[i], states[j])
    decreases j
  {
    if j > 0 {
      Along(states, acts, if i < j then i else j - 1, j - 1);
      assert SpineNext(states[j - 1], acts[j - 1], states[j]);
      SpineNextKeepsInv(states[j - 1], acts[j - 1], states[j]);
      if i < j {
        FollowsTransitive(states[i], states[j - 1], states[j]);
      }
    }
  }

  predicate Succeeds(acts: seq<SpineAct>, i: nat) {
    i < |acts| && acts[i].Turn? && acts[i].result.Success?
  }

  lemma SuccessIdentified(states: seq<Spine>, acts: seq<SpineAct>, i: nat)
    requires SpineTrace(states, acts) && Succeeds(acts, i)
    ensures Identified(Both(states[i + 1]), acts[i].caller, acts[i].result.value)
  {
    assert SpineNext(states[i], acts[i], states[i + 1]);
  }

  /** The current Run of the Session's own Work names this agent and binding. */
  predicate Holds(s: Spine, session: string, agent: string, binding: string) {
    && TurnWork(s.g, session) && session in s.g.currentRun && s.g.currentRun[session] in s.k.runs
    && Names(s.k.runs[s.g.currentRun[session]].context, agent, binding)
  }

  lemma SuccessHolds(s: Spine, c: Caller, identity: TurnIdentity)
    requires Inv(s) && Identified(Both(s), c, identity)
    ensures Holds(s, c.session, c.agent, identity.owner.binding)
  {
    assert RunNamed(s.g, s.k, c.session);
  }

  /** The agent and binding a Session's Run names are those of all its later Runs. */
  lemma HoldsOn(a: Spine, act: SpineAct, b: Spine, session: string, agent: string, binding: string)
    requires Inv(a) && SpineNext(a, act, b) && Holds(a, session, agent, binding)
    ensures Holds(b, session, agent, binding)
  {
    SpineNextKeepsInv(a, act, b);
    if act.Turn? {
      TurnHolds(a, act.caller, act.pick, act.result, b, session, agent, binding);
    } else {
      OnlyTurnsRepoint(a, act, b, session);
      PointerHolds(a, b, session, agent, binding);
    }
  }

  lemma OnlyTurnsRepoint(a: Spine, act: SpineAct, b: Spine, w: string)
    requires SpineNext(a, act, b) && !act.Turn? && w in a.g.currentRun
    ensures Get(b.g.currentRun, w) == Get(a.g.currentRun, w)
  {
    if act.Dispatching? {
      AttemptAdds(a, act.occurrence, act.steps);
    }
  }

  lemma PointerHolds(a: Spine, b: Spine, session: string, agent: string, binding: string)
    requires Follows(a, b) && Holds(a, session, agent, binding)
    requires Get(b.g.currentRun, session) == Get(a.g.currentRun, session)
    ensures Holds(b, session, agent, binding)
  {
    var run := a.g.currentRun[session];
    assert SameRun(a.k.runs[run], b.k.runs[run]);
  }

  lemma TurnHolds(a: Spine, c: Caller, pick: string, r: Result<TurnIdentity, TurnError>, b: Spine, session: string,
                  agent: string, binding: string)
    requires SpineNext(a, Turn(c, pick, r), b) && Follows(a, b) && Holds(a, session, agent, binding)
    ensures Holds(b, session, agent, binding)
  {
    OtherWorkSame(a.g, b.g, c.session, session);
    if Get(b.g.currentRun, session) == Get(a.g.currentRun, session) {
      PointerHolds(a, b, session, agent, binding);
    }
  }

  lemma {:induction false} HoldsAlong(states: seq<Spine>, acts: seq<SpineAct>, i: nat, j: nat, session: string,
                                      agent: string, binding: string)
    requires SpineTrace(states, acts) && i <= j <= |acts| && Holds(states[i], session, agent, binding)
    ensures Holds(states[j], session, agent, binding)
    decreases j - i
  {
    if i < j {
      HoldsAlong(states, acts, i, j - 1, session, agent, binding);
      HoldsNext(states, acts, j, session, agent, binding);
    }
  }

  lemma HoldsNext(states: seq<Spine>, acts: seq<SpineAct>, j: nat, session: string, agent: string, binding: string)
    requires SpineTrace(states, acts) && 0 < j <= |acts| && Holds(states[j - 1], session, agent, binding)
    ensures Holds(states[j], session, agent, binding)
  {
    Along(states, acts, 0, j - 1);
    assert SpineNext(states[j - 1], acts[j - 1], states[j - 1 + 1]);
    HoldsOn(states[j - 1], acts[j - 1], states[j], session, agent, binding);
  }

  /** A Session stays with its first agent and binding: whichever bindings others register
      meanwhile, a later turn of the Session only succeeds for the same agent and binding. */
  lemma SessionSticks(states: seq<Spine>, acts: seq<SpineAct>, i: nat, j: nat)
    requires SpineTrace(states, acts) && i <= j && Succeeds(acts, i) && Succeeds(acts, j)
    requires acts[i].caller.session == acts[j].caller.session
    ensures acts[i].caller.agent == acts[j].caller.agent
    ensures acts[i].result.value.owner.binding == acts[j].result.value.owner.binding
  {
    var c, d := acts[i].caller, acts[j].caller;
    SuccessIdentified(states, acts, i);
    SuccessIdentified(states, acts, j);
    if i < j {
      Along(states, acts, 0, i + 1);
      SuccessHolds(states[i + 1], c, acts[i].result.value);
      HoldsAlong(states, acts, i + 1, j, d.session, c.agent, acts[i].result.value.owner.binding);
      assert SpineNext(states[j], acts[j], states[j + 1]);
      assert RunOwned(states[j].g, states[j].k, d.session, d.agent, acts[j].pick);
    }
  }

  /** Two identities, the later one in a state that continues the earlier one's. */
  lemma TwoIdentities(a: Owners, b: Owners, c: Caller, p: TurnIdentity, d: Caller, q: TurnIdentity)
    requires Identified(a, c, p) && Identified(b, d, q)
    requires BindingsKept(a.g.bindings, b.g.bindings) && RunsKept(a.k.runs, b.k.runs)
    ensures p.owner.work == q.owner.work <==> c.session == d.session
    ensures p.owner.binding == q.owner.binding ==> c.session == d.session && c.agent == d.agent
    ensures p.run == q.run ==> c.session == d.session
  {
    assert SameOwner(a.g.bindings[p.owner.binding], b.g.bindings[p.owner.binding]);
    assert SameRun(a.k.runs[p.run], b.k.runs[p.run]);
  }

  /** Isolation. Take any two successful turns of a run: they have one Work, and one binding,
      exactly if they are of one Session; then they are of one agent too; and they never have
      one Run across two Sessions. */
  lemma Isolation(states: seq<Spine>, acts: seq<SpineAct>, i: nat, j: nat)
    requires SpineTrace(states, acts) && i <= j && Succeeds(acts, i) && Succeeds(acts, j)
    ensures var c, d := acts[i].caller, acts[j].caller; var p, q := acts[i].result.value, acts[j].result.value;
            && (p.owner.work == q.owner.work <==> c.session == d.session)
            && (p.owner.binding == q.owner.binding <==> c.session == d.session)
            && (c.session == d.session ==> c.agent == d.agent)
            && (p.run == q.run ==> c.session == d.session)
  {
    SuccessIdentified(states, acts, i);
    SuccessIdentified(states, acts, j);
    Along(states, acts, i + 1, j + 1);
    TwoIdentities(Both(states[i + 1]), Both(states[j + 1]), acts[i].caller, acts[i].result.value, acts[j].caller,
                  acts[j].result.value);
    if acts[i].caller.session == acts[j].caller.session {
      SessionSticks(states, acts, i, j);
    }
  }

  // ---------------------------------------------------------------- one binding per agent

  /** Somebody other than a turn registers a binding of this agent for this Session's Work. */
  predicate Registers(act: SpineAct, session: string, agent: string) {
    act.BindingRegistered? && act.registered.work == session && act.registered.session == session
    && act.registered.agent == agent
  }

  /** Every binding for the agent that is there afterwards was there before. */
  lemma AloneStays(a: map<string, AgentBinding>, b: map<string, AgentBinding>, session: string, agent: string)
    requires Alone(a, session, agent) && BindingsKept(a, b)
    requires forall id :: ForAgent(b, id, session, agent) && id !in a ==> NoneFor(a, session, agent)
    requires forall i, j :: i in b && j in b && i !in a && j !in a ==> i == j
    ensures Alone(b, session, agent)
  {
    forall i, j | ForAgent(b, i, session, agent) && ForAgent(b, j, session, agent) ensures i == j {
      assert i in a ==> SameOwner(a[i], b[i]) && ForAgent(a, i, session, agent);
      assert j in a ==> SameOwner(a[j], b[j]) && ForAgent(a, j, session, agent);
    }
  }

  lemma TurnKeepsAlone(a: Owners, b: Owners, c: Caller, pick: string, session: string, agent: string)
    requires TurnFrame(a, b, c, pick) && Alone(a.g.bindings, session, agent)
    ensures Alone(b.g.bindings, session, agent)
  {
    forall id | id in b.g.bindings && id !in a.g.bindings ensures id == pick {
      assert id != pick ==> id in b.g.bindings - {pick};
    }
    AloneStays(a.g.bindings, b.g.bindings, session, agent);
  }

  lemma AloneNext(a: Spine, act: SpineAct, b: Spine, session: string, agent: string)
    requires Inv(a) && SpineNext(a, act, b) && !Registers(act, session, agent) && Alone(a.g.bindings, session, agent)
    ensures Alone(b.g.bindings, session, agent)
  {
    match act
    case Turn(c, pick, r) => TurnKeepsAlone(Both(a), Both(b), c, pick, session, agent);
    case BindingRegistered(binding) => RegisterKeepsAlone(a.g, a.k, binding, session, agent);
    case BindingMoved(id, move, provider) => MoveKeepsAlone(a.g, a.k, id, move, provider, session, agent);
    case _ => OthersLeaveBindings(a, act, b);
  }

  lemma OthersLeaveBindings(a: Spine, act: SpineAct, b: Spine)
    requires SpineNext(a, act, b) && (act.RunTransition? || act.Dispatching? || act.GatesChanged?)
    ensures b.g.bindings == a.g.bindings
  {
    if act.Dispatching? {
      AttemptAdds(a, act.occurrence, act.steps);
    }
  }

  lemma RegisterKeepsAlone(g: Gateway, k: Kernel, b: AgentBinding, session: string, agent: string)
    requires GatewayInv(g, k) && !Registers(BindingRegistered(b), session, agent) && Alone(g.bindings, session, agent)
    ensures Alone(g.CreateBinding(b).0.bindings, session, agent)
  {
    RegisterKeepsInv(g, k, b);
    AloneStays(g.bindings, g.CreateBinding(b).0.bindings, session, agent);
  }

  lemma MoveKeepsAlone(g: Gateway, k: Kernel, id: string, move: BindingMove, provider: Option<string>,
                       session: string, agent: string)
    requires GatewayInv(g, k) && Alone(g.bindings, session, agent)
    ensures Alone(g.MoveBinding(id, move, provider).0.bindings, session, agent)
  {
    MoveKeepsInv(g, k, id, move, provider);
    AloneStays(g.bindings, g.MoveBinding(id, move, provider).0.bindings, session, agent);
  }

  /** Turns never make a second binding for an agent of a Work: as long as nobody registers
      one, there is at most one, and which binding a turn finds is no choice. */
  lemma {:induction false} AloneAlong(states: seq<Spine>, acts: seq<SpineAct>, n: nat, session: string, agent: string)
    requires SpineTrace(states, acts) && n <= |acts| && Alone(states[0].g.bindings, session, agent)
    requires forall i :: 0 <= i < n ==> !Registers(acts[i], session, agent)
    ensures Alone(states[n].g.bindings, session, agent)
  {
    if n > 0 {
      AloneAlong(states, acts, n - 1, session, agent);
      Along(states, acts, 0, n - 1);
      assert SpineNext(states[n - 1], acts[n - 1], states[n - 1 + 1]);
      AloneNext(states[n - 1], acts[n - 1], states[n], session, agent);
    }
  }

  /** The Work's current Run is finished, as both owners say. */
  predicate Closed(s: Spine, session: string) {
    Finished(s.g, session) && s.g.currentRun[session] in s.k.runs && s.k.runs[s.g.currentRun[session]].phase.Terminal()
  }

  /** One finished Run closes the Session for good: the branch that would start a new Run
      for a finished Work is taken, and refused by the gateway, every time. */
  lemma ClosedForever(states: seq<Spine>, acts: seq<SpineAct>, i: nat, j: nat)
    requires SpineTrace(states, acts) && i <= j < |acts| && acts[j].Turn? && Closed(states[i], acts[j].caller.session)
    ensures acts[j].result.Failure? && Closed(states[j], acts[j].caller.session)
  {
    Along(states, acts, i, j);
    assert FinishedKept(states[i].g, states[j].g, acts[j].caller.session);
    assert SpineNext(states[j], acts[j], states[j + 1]);
  }
}
