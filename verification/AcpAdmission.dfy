/** Who owns an ACP turn, when a turn is admitted, and what the two owners of a Run's
    state agree on. */
module AcpAdmission {
  import opened Basics
  import opened Lifecycle
  import opened WorkGatewayModel
  import opened ExecutionKernelModel

  // ---------------------------------------------------------------- identity

  datatype CanonicalOwner = CanonicalOwner(session: string, work: string, binding: string)

  datatype TurnIdentity = TurnIdentity(owner: CanonicalOwner, run: string)

  datatype TurnError =
    | MissingApplicationSession | MissingProviderSession | EmptyAgent
    | WorkRefused
    | BindingRefused | ProviderSessionConflict
    | RunMissing | RunForeign | RunOfAnotherAgent | RunOfAnotherBinding
    | RunRefused | RunUnrecorded
  {
    /** The failures of the steps that start a Run; these park the binding again. */
    predicate RunStep() {
      RunRefused? || RunUnrecorded?
    }

    /** The refusals of the Work's current Run; these come after the binding step. */
    predicate RunLookup() {
      RunMissing? || RunForeign? || RunOfAnotherAgent? || RunOfAnotherBinding?
    }
  }

  /** The Work id of a Session is the Session id. */
  function CanonicalWorkId(session: string): string {
    session
  }

  function CanonicalBindingId(session: string, work: string, agent: string): string {
    "acp-binding:" + session + ":" + work + ":" + agent
  }

  // ---------------------------------------------------------------- when a turn is admitted

  predicate Matches(g: Gateway, id: string, session: string, agent: string) {
    ForAgent(g.bindings, id, session, agent)
  }

  predicate ForAgent(bindings: map<string, AgentBinding>, id: string, session: string, agent: string) {
    id in bindings && bindings[id].work == session && bindings[id].session == session && bindings[id].agent == agent
  }

  /** The binding a turn finds: one the Work has for this agent, whichever that is, or else
      the canonical id. */
  ghost predicate Choice(bindings: map<string, AgentBinding>, session: string, agent: string, pick: string) {
    ForAgent(bindings, pick, session, agent)
    || (NoneFor(bindings, session, agent) && pick == CanonicalBindingId(session, CanonicalWorkId(session), agent))
  }

  ghost predicate NoneFor(bindings: map<string, AgentBinding>, session: string, agent: string) {
    forall id :: !ForAgent(bindings, id, session, agent)
  }

  /** The Work has at most one binding for this agent, so that there is no choice. */
  ghost predicate Alone(bindings: map<string, AgentBinding>, session: string, agent: string) {
    forall i, j :: ForAgent(bindings, i, session, agent) && ForAgent(bindings, j, session, agent) ==> i == j
  }

  ghost function PickBinding(bindings: map<string, AgentBinding>, session: string, agent: string): (pick: string)
    ensures Choice(bindings, session, agent, pick)
  {
    if exists id :: ForAgent(bindings, id, session, agent)
    then var id :| ForAgent(bindings, id, session, agent); id
    else CanonicalBindingId(session, CanonicalWorkId(session), agent)
  }

  /** The binding `pick` is there for this Session and agent, or its id is free, and nothing
      keeps a turn from activating it for the provider session. */
  predicate BindingUsable(g: Gateway, session: string, agent: string, provider: string, pick: string) {
    if Matches(g, pick, session, agent) then
      && pick != ""
      && (match g.bindings[pick].state
          case Active => g.bindings[pick].provider == Some(provider)
                         || (g.bindings[pick].provider.None? && !g.SiblingActive(pick, session))
          case Parked | Resuming => !g.SiblingActive(pick, session)
          case Dead | Unavailable => false)
    else
      pick !in g.bindings && !g.SiblingActive(pick, session)
  }

  predicate ContextAllows(c: Context, agent: string, binding: string) {
    c.Readable? ==> (c.agent.Some? ==> c.agent.value == agent) && (c.binding.Some? ==> c.binding.value == binding)
  }

  /** The Work's current Run, if it has one, is known to the kernel and belongs to this
      Session, agent and binding. */
  predicate RunOwned(g: Gateway, k: Kernel, session: string, agent: string, binding: string) {
    session in g.currentRun ==>
      var run := g.currentRun[session];
      run in k.runs && k.runs[run].session == session && ContextAllows(k.runs[run].context, agent, binding)
  }

  /** A turn continues a Run that runs, or that the kernel's table lets run. */
  predicate Continuable(phase: State) {
    phase.Running? || KernelMay(phase, Running)
  }

  /** The kernel will start the current Run again but the gateway will not record it. */
  predicate Contested(g: Gateway, k: Kernel, session: string) {
    session in g.currentRun && g.currentRun[session] in k.runs &&
    var run := g.currentRun[session];
    var phase := k.runs[run].phase;
    !phase.Running? && k.MayMove(run, Running) && !g.MayMove(session, run, Running)
  }

  /** A current Run that a turn continues is accepted by both owners; one that it replaces
      must not be finished in the gateway's eyes. */
  predicate RunUsable(g: Gateway, k: Kernel, session: string)
    requires session in g.currentRun ==> g.currentRun[session] in k.runs
  {
    session in g.currentRun ==>
      var run := g.currentRun[session];
      var phase := k.runs[run].phase;
      if Continuable(phase) then phase.Running? || (k.MayMove(run, Running) && g.MayMove(session, run, Running))
      else (session, run) in g.runStates ==> !g.runStates[(session, run)].Terminal()
  }

  /** Everything a turn that finds the binding `pick` checks before it starts a Run. */
  predicate FrontDoor(g: Gateway, k: Kernel, session: string, agent: string, provider: string, pick: string) {
    && session != "" && agent != "" && provider != ""
    && (session in g.works ==> g.works[session].session == Some(session))
    && BindingUsable(g, session, agent, provider, pick)
    && RunOwned(g, k, session, agent, pick)
  }

  /** The exact condition under which a turn that finds the binding `pick` is admitted. */
  predicate Admissible(g: Gateway, k: Kernel, session: string, agent: string, provider: string, pick: string) {
    FrontDoor(g, k, session, agent, provider, pick) && RunUsable(g, k, session)
  }

  // ---------------------------------------------------------------- why a turn is refused

  /** Why the Run step refuses a turn of which no write fails. */
  function RunCause(g: Gateway, k: Kernel, session: string, agent: string, binding: string): TurnError {
    if session !in g.currentRun then RunUnrecorded
    else
      var run := g.currentRun[session];
      if run !in k.runs then RunMissing
      else if k.runs[run].session != session then RunForeign
      else if !ContextAllows(k.runs[run].context, agent, binding) then
        if k.runs[run].context.agent.Some? && k.runs[run].context.agent.value != agent then RunOfAnotherAgent
        else RunOfAnotherBinding
      else if Continuable(k.runs[run].phase) && !k.MayMove(run, Running) then RunRefused
      else RunUnrecorded
  }

  /** The binding `pick` is active for another provider session. */
  predicate Conflicting(g: Gateway, session: string, agent: string, provider: string, pick: string) {
    && Matches(g, pick, session, agent) && pick != "" && g.bindings[pick].state.Active?
    && g.bindings[pick].provider.Some? && g.bindings[pick].provider != Some(provider)
  }

  /** Why a turn is refused of which no write fails: the first of its checks that does not hold. */
  function Cause(g: Gateway, k: Kernel, session: string, agent: string, provider: string, pick: string): TurnError {
    if session == "" then MissingApplicationSession
    else if agent == "" then EmptyAgent
    else if provider == "" then MissingProviderSession
    else if session in g.works && g.works[session].session != Some(session) then WorkRefused
    else if Conflicting(g, session, agent, provider, pick) then ProviderSessionConflict
    else if !BindingUsable(g, session, agent, provider, pick) then BindingRefused
    else RunCause(g, k, session, agent, pick)
  }

  // ---------------------------------------------------------------- what the two owners agree on

  /** No id the kernel's counter has yet to mint is mentioned by the gateway. */
  ghost predicate IdsAhead(g: Gateway, counter: nat) {
    forall n: nat, w :: n > counter ==> Unused(g, w, MintedId(n))
  }

  predicate Unused(g: Gateway, work: string, run: string) {
    (work, run) !in g.runStates && (work, run) !in g.runFields && Get(g.currentRun, work) != Some(run)
  }

  /** Only known Works have a current Run, and no two Works share one. */
  ghost predicate RunsPlaced(works: map<string, WorkAddress>, currentRun: map<string, string>) {
    && currentRun.Keys <= works.Keys
    && (forall v, w :: v in currentRun && w in currentRun && currentRun[v] == currentRun[w] ==> v == w)
  }

  /** A Run is described only by a link, so only in a Work that has a current Run. */
  ghost predicate FieldsPlaced(currentRun: map<string, string>, runFields: map<(string, string), map<string, string>>) {
    forall key :: key in runFields ==> key.0 in currentRun
  }

  /** A binding is filed under its own id and belongs to the Session of its Work. */
  ghost predicate BindingsPlaced(works: map<string, WorkAddress>, bindings: map<string, AgentBinding>) {
    forall id :: id in bindings ==> bindings[id].id == id && bindings[id].work in works
                                    && works[bindings[id].work].session == Some(bindings[id].session)
  }

  /** Structural facts every operation of this model keeps. */
  ghost predicate Sound(g: Gateway, k: Kernel) {
    && k.CounterAhead()
    && IdsAhead(g, k.counter)
    && RunsPlaced(g.works, g.currentRun) && FieldsPlaced(g.currentRun, g.runFields)
    && BindingsPlaced(g.works, g.bindings)
  }

  /** The gateway's state of the Work's current Run, the state it shows for the Work, and
      the kernel's phase of that Run are one and the same. */
  predicate Agree(g: Gateway, k: Kernel, work: string) {
    work in g.currentRun ==>
      var run := g.currentRun[work];
      && run in k.runs && (work, run) in g.runStates && work in g.presence
      && g.presence[work] == g.runStates[(work, run)] == WorkStateForPhase(k.runs[run].phase)
  }

  /** The Work's current Run is finished in the gateway's eyes. */
  predicate Finished(g: Gateway, work: string) {
    work in g.currentRun && (work, g.currentRun[work]) in g.runStates
        && g.runStates[(work, g.currentRun[work])].Terminal()
  }

  /** A finished Work keeps its current Run and that Run's state. */
  predicate FinishedKept(a: Gateway, b: Gateway, work: string) {
    Finished(a, work) ==> Finished(b, work) && b.currentRun[work] == a.currentRun[work]
                          && b.runStates[(work, b.currentRun[work])] == a.runStates[(work, a.currentRun[work])]
  }

  /** A Work that never had a Run shows no state, or the one it was created with. */
  predicate Unstarted(g: Gateway, work: string) {
    work !in g.currentRun ==> Get(g.presence, work) == None || Get(g.presence, work) == Some(Created)
  }
}
