/** Admission of one scheduled occurrence: Session, Work, provenance row, Run, Work→Run
    link and recorded state, each done only if it is absent. */
module Dispatch {
  import opened Basics
  import opened Lifecycle
  import opened SessionVaultModel
  import opened WorkGatewayModel
  import opened ExecutionKernelModel

  /** What `compile_work` made of an occurrence: its objective, the serialised spec and
      the provenance the spec claims. */
  datatype WorkSpec = WorkSpec(objective: string, text: string, origin: Origin)

  datatype Occurrence = Occurrence(
    automation: string, revision: string, generation: nat, id: string,
    payloadDigest: string, dedupDigest: string, compiled: Option<WorkSpec>)
  {
    function Origin(): ExecutionKernelModel.Origin {
      ExecutionKernelModel.Origin(automation, revision, generation, id)
    }

    function Stamp(): Provenance {
      Provenance(automation, revision, generation, id, payloadDigest, dedupDigest)
    }

    function SessionId(): string {
      if generation <= 1 then "automation-session:" + automation
      else "automation-session:" + automation + ":g" + Decimal(generation)
    }

    function WorkId(): string {
      "automation-work:" + automation + ":" + id
    }

    function RunId(): string {
      "automation-run:" + automation + ":" + id
    }

    /** `compile_occurrence`: a spec whose provenance is the occurrence's own. */
    predicate Compiles() {
      compiled.Some? && compiled.value.origin == Origin()
    }

    /** The context given to the Run. */
    function RunContext(): Context {
      Readable(None, None, Some(Origin()))
    }
  }

  datatype Receipt = Receipt(work: string, run: string, origin: Origin)

  function ReceiptFor(occ: Occurrence): Receipt {
    Receipt(occ.WorkId(), occ.RunId(), occ.Origin())
  }

  datatype Refusal =
    | CompileRefused | SessionRefused | WorkOfAnotherOwner | ObjectiveChanged | WorkNotCreated
    | ProvenanceRefused | RunOfAnotherOwner | BoundToAnotherRun | NotBound | NotRecorded

  /** The three owners a dispatch writes to. */
  datatype Spine = Spine(v: Vault, g: Gateway, k: Kernel)

  // ---------------------------------------------------------------- the steps

  /** The record is this automation's headless Session. */
  predicate Fits(record: StoredSession, occ: Occurrence) {
    && record.Stored?
    && record.id == Some(occ.SessionId()) && record.kind == Some("automation")
       && record.automation == Some(occ.automation)
    && (record.generation.Some? ==> record.generation.value == occ.generation)
  }

  function NewSession(occ: Occurrence): StoredSession {
    Stored(Some(occ.SessionId()), Some("automation"), Some(occ.automation), Some(occ.generation), occ.revision)
  }

  function EnsureSession(v: Vault, occ: Occurrence): (Vault, bool) {
    if occ.SessionId() in v.sessions then (v, Fits(v.sessions[occ.SessionId()], occ))
    else v.Put(occ.SessionId(), NewSession(occ))
  }

  predicate HasProvenance(g: Gateway, occ: Occurrence)
    requires occ.Compiles()
  {
    Logged(g.journal, occ.WorkId(), ProvenanceStamped(occ.Stamp(), occ.compiled.value.text))
  }

  predicate HasObjective(g: Gateway, occ: Occurrence)
    requires occ.Compiles()
  {
    exists row :: row in g.journal && row.work == occ.WorkId() && row.event.WorkCreated?
                  && row.event.objective == occ.compiled.value.objective
  }

  /** An existing Work must be the occurrence's own; a missing one is created. */
  function AdmitWork(g: Gateway, occ: Occurrence): (Gateway, bool)
    requires occ.Compiles()
  {
    if occ.WorkId() in g.works then
      var existing := g.works[occ.WorkId()];
      (g, existing.session == Some(occ.SessionId())
          && (existing.kind.Automation? || (existing.kind.Interactive? && HasProvenance(g, occ)))
          && HasObjective(g, occ))
    else g.CreateWork(occ.WorkId(), Some(occ.SessionId()), Automation, occ.compiled.value.objective)
  }

  function AdmitProvenance(g: Gateway, occ: Occurrence): (Gateway, bool)
    requires occ.Compiles()
  {
    if HasProvenance(g, occ) then (g, true) else g.StampProvenance(occ.WorkId(), occ.Stamp(), occ.compiled.value.text)
  }

  function AdmitRun(k: Kernel, occ: Occurrence): (Kernel, bool)
    requires occ.Compiles()
  {
    if occ.RunId() in k.runs then
      var existing := k.runs[occ.RunId()];
      (k, existing.session == occ.SessionId() && existing.context.Readable?
          && existing.context.origin == Some(occ.Origin()))
    else (k.BeginNamed(occ.RunId(), occ.SessionId(), occ.compiled.value.objective, occ.RunContext()), true)
  }

  function AdmitLink(g: Gateway, occ: Occurrence): (Gateway, bool) {
    if occ.WorkId() in g.currentRun then (g, g.currentRun[occ.WorkId()] == occ.RunId())
    else g.BindExecution(occ.WorkId(), occ.RunId())
  }

  function AdmitState(g: Gateway, occ: Occurrence, phase: State): (Gateway, bool) {
    var state := WorkStateForPhase(phase);
    if Get(g.presence, occ.WorkId()) == Some(state) then (g, true)
    else g.RecordTransition(occ.WorkId(), occ.RunId(), state)
  }

  /** The `n`-th step, and whether dispatch goes on. */
  function Step(s: Spine, occ: Occurrence, n: nat): (Spine, bool)
    requires occ.Compiles()
  {
    match n
    case 0 => var (v, ok) := EnsureSession(s.v, occ); (s.(v := v), ok)
    case 1 => var (g, ok) := AdmitWork(s.g, occ); (s.(g := g), ok)
    case 2 => var (g, ok) := AdmitProvenance(s.g, occ); (s.(g := g), ok)
    case 3 => var (k, ok) := AdmitRun(s.k, occ); (s.(k := k), ok)
    case 4 => var (g, ok) := AdmitLink(s.g, occ); (s.(g := g), ok)
    case _ =>
      if occ.RunId() in s.k.runs then
        var (g, ok) := AdmitState(s.g, occ, s.k.runs[occ.RunId()].phase); (s.(g := g), ok)
      else (s, false)
  }

  const STEPS: nat := 6

  /** The first `n` steps, stopping at the first one that refuses. */
  function Attempt(s: Spine, occ: Occurrence, n: nat): (Spine, bool)
    requires occ.Compiles()
  {
    if n == 0 then (s, true) else Onward(Attempt(s, occ, n - 1), occ, n - 1)
  }

  /** One more step, if the steps before it went through. */
  function Onward(r: (Spine, bool), occ: Occurrence, n: nat): (Spine, bool)
    requires occ.Compiles()
  {
    if r.1 then Step(r.0, occ, n) else r
  }

  /** An uninterrupted dispatch. */
  function Dispatched(s: Spine, occ: Occurrence): (Spine, bool) {
    if occ.Compiles() then Attempt(s, occ, STEPS) else (s, false)
  }

  // ---------------------------------------------------------------- the call

  method EnsureAutomationSession(vault: SessionVault, occ: Occurrence) returns (ok: bool)
    modifies vault
    ensures (vault.Now(), ok) == EnsureSession(old(vault.Now()), occ)
    ensures ok && occ.SessionId() !in old(vault.sessions) ==>
              vault.sessions == old(vault.sessions)[occ.SessionId() :=
                                  Stored(Some(occ.SessionId()), Some("automation"), Some(occ.automation),
                                         Some(occ.generation), occ.revision)]
    ensures !ok || occ.SessionId() in old(vault.sessions) ==> vault.sessions == old(vault.sessions)
  {
    if occ.SessionId() in vault.sessions {
      return Fits(vault.sessions[occ.SessionId()], occ);
    }
    ok := vault.Put(occ.SessionId(), NewSession(occ));
  }

  method ResolveWork(gateway: WorkGateway, occ: Occurrence) returns (refusal: Option<Refusal>)
    requires occ.Compiles()
    modifies gateway
    ensures (gateway.Now(), refusal.None?) == AdmitWork(old(gateway.Now()), occ)
    ensures refusal.None? || refusal.value.WorkOfAnotherOwner? || refusal.value.ObjectiveChanged?
            || refusal.value.WorkNotCreated?
    ensures refusal == Some(WorkNotCreated) ==> occ.WorkId() !in old(gateway.works)
    ensures refusal == Some(WorkOfAnotherOwner) ==> occ.WorkId() in old(gateway.works)
    ensures occ.WorkId() in old(gateway.works) ==>
              var work := old(gateway.works)[occ.WorkId()];
              refusal == Some(WorkOfAnotherOwner)
              <==> work.session != Some(occ.SessionId()) || work.kind == Delegated
                   || (work.kind == Interactive
                       && !Logged(gateway.journal, occ.WorkId(),
                                  ProvenanceStamped(occ.Stamp(), occ.compiled.value.text)))
  {
    if occ.WorkId() in gateway.works {
      var existing := gateway.works[occ.WorkId()];
      var replayed := Logged(gateway.journal, occ.WorkId(), ProvenanceStamped(occ.Stamp(), occ.compiled.value.text));
      var kindMatches := existing.kind.Automation? || (existing.kind.Interactive? && replayed);
      if existing.session != Some(occ.SessionId()) || !kindMatches {
        return Some(WorkOfAnotherOwner);
      }
      if !exists row :: row in gateway.journal && row.work == occ.WorkId() && row.event.WorkCreated?
                        && row.event.objective == occ.compiled.value.objective {
        return Some(ObjectiveChanged);
      }
      return None;
    }
    var ok := gateway.CreateWork(occ.WorkId(), Some(occ.SessionId()), Automation, occ.compiled.value.objective);
    return if ok then None else Some(WorkNotCreated);
  }

  method ResolveRun(kernel: ExecutionKernel, occ: Occurrence) returns (phase: Option<State>)
    requires occ.Compiles()
    modifies kernel
    ensures (kernel.Now(), phase.Some?) == AdmitRun(old(kernel.Now()), occ)
    ensures phase.Some? ==> occ.RunId() in kernel.runs && phase.value == kernel.runs[occ.RunId()].phase
    ensures phase.None? <==>
            && occ.RunId() in old(kernel.runs)
            && (old(kernel.runs)[occ.RunId()].session != occ.SessionId()
                || old(kernel.runs)[occ.RunId()].context.Unreadable?
                || old(kernel.runs)[occ.RunId()].context.origin
                   != Some(ExecutionKernelModel.Origin(occ.automation, occ.revision, occ.generation, occ.id)))
  {
    if occ.RunId() in kernel.runs {
      var existing := kernel.runs[occ.RunId()];
      if existing.session != occ.SessionId() || existing.context.Unreadable?
          || existing.context.origin != Some(occ.Origin()) {
        return None;
      }
      return Some(existing.phase);
    }
    kernel.BeginNamed(occ.RunId(), occ.SessionId(), occ.compiled.value.objective, occ.RunContext());
    return Some(Ready);
  }

  method ResolveProvenance(gateway: WorkGateway, occ: Occurrence) returns (ok: bool)
    requires occ.Compiles()
    modifies gateway
    ensures (gateway.Now(), ok) == AdmitProvenance(old(gateway.Now()), occ)
  {
    if Logged(gateway.journal, occ.WorkId(), ProvenanceStamped(occ.Stamp(), occ.compiled.value.text)) {
      return true;
    }
    ok := gateway.StampProvenance(occ.WorkId(), occ.Stamp(), occ.compiled.value.text);
  }

  method ResolveLink(gateway: WorkGateway, occ: Occurrence) returns (refusal: Option<Refusal>)
    modifies gateway
    ensures (gateway.Now(), refusal.None?) == AdmitLink(old(gateway.Now()), occ)
    ensures refusal == Some(BoundToAnotherRun) <==>
            occ.WorkId() in old(gateway.currentRun) && old(gateway.currentRun)[occ.WorkId()] != occ.RunId()
    ensures refusal.None? || refusal == Some(BoundToAnotherRun) || refusal == Some(NotBound)
  {
    if occ.WorkId() in gateway.currentRun {
      return if gateway.currentRun[occ.WorkId()] == occ.RunId() then None else Some(BoundToAnotherRun);
    }
    var ok := gateway.BindExecution(occ.WorkId(), occ.RunId());
    return if ok then None else Some(NotBound);
  }

  method ResolveState(gateway: WorkGateway, occ: Occurrence, phase: State) returns (ok: bool)
    modifies gateway
    ensures (gateway.Now(), ok) == AdmitState(old(gateway.Now()), occ, phase)
  {
    var state := WorkStateForPhase(phase);
    if Get(gateway.presence, occ.WorkId()) == Some(state) {
      return true;
    }
    ok := gateway.RecordTransition(occ.WorkId(), occ.RunId(), state);
  }

  /** The dispatch is its six steps, in order, up to the first refusal; an admitted
      occurrence gets the receipt of its own Work and Run. */
  method DispatchOccurrence(vault: SessionVault, gateway: WorkGateway, kernel: ExecutionKernel, occ: Occurrence)
    returns (r: Result<Receipt, Refusal>)
    modifies vault, gateway, kernel
    ensures (Spine(vault.Now(), gateway.Now(), kernel.Now()), r.Success?)
            == Dispatched(old(Spine(vault.Now(), gateway.Now(), kernel.Now())), occ)
    ensures r.Success? ==>
              r.value == Receipt(occ.WorkId(), occ.RunId(),
                                 ExecutionKernelModel.Origin(occ.automation, occ.revision, occ.generation, occ.id))
    ensures r == Failure(CompileRefused) <==>
            occ.compiled.None?
            || occ.compiled.value.origin
               != ExecutionKernelModel.Origin(occ.automation, occ.revision, occ.generation, occ.id)
  {
    ghost var s := Spine(vault.Now(), gateway.Now(), kernel.Now());
    if occ.compiled.None? || occ.compiled.value.origin != occ.Origin() {
      return Failure(CompileRefused);
    }
    Unroll(s, occ);
    var ok := EnsureAutomationSession(vault, occ);
    if !ok {
      return Failure(SessionRefused);
    }
    var refusal := ResolveWork(gateway, occ);
    if refusal.Some? {
      return Failure(refusal.value);
    }
    ok := ResolveProvenance(gateway, occ);
    if !ok {
      return Failure(ProvenanceRefused);
    }
    var phase := ResolveRun(kernel, occ);
    if phase.None? {
      return Failure(RunOfAnotherOwner);
    }
    refusal := ResolveLink(gateway, occ);
    if refusal.Some? {
      return Failure(refusal.value);
    }
    ok := ResolveState(gateway, occ, phase.value);
    if !ok {
      return Failure(NotRecorded);
    }
    return Success(ReceiptFor(occ));
  }

  /** The six steps written out. */
  ghost function InOrder(s: Spine, occ: Occurrence): (Spine, bool)
    requires occ.Compiles()
  {
    var (v, ok0) := EnsureSession(s.v, occ);
    if !ok0 then (Spine(v, s.g, s.k), false) else
    var (g1, ok1) := AdmitWork(s.g, occ);
    if !ok1 then (Spine(v, g1, s.k), false) else
    var (g2, ok2) := AdmitProvenance(g1, occ);
    if !ok2 then (Spine(v, g2, s.k), false) else
    var (k, ok3) := AdmitRun(s.k, occ);
    if !ok3 then (Spine(v, g2, k), false) else
    var (g4, ok4) := AdmitLink(g2, occ);
    if !ok4 then (Spine(v, g4, k), false) else
    var (g5, ok5) := AdmitState(g4, occ, k.runs[occ.RunId()].phase);
    (Spine(v, g5, k), ok5)
  }

  lemma Unroll(s: Spine, occ: Occurrence)
    requires occ.Compiles()
    ensures Attempt(s, occ, STEPS) == InOrder(s, occ)
  {
    var a0 := Attempt(s, occ, 0);
    var a1 := Attempt(s, occ, 1);
    var a2 := Attempt(s, occ, 2);
    var a3 := Attempt(s, occ, 3);
    var a4 := Attempt(s, occ, 4);
    var a5 := Attempt(s, occ, 5);
  }
}
