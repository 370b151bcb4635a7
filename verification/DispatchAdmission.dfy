/** Exactly when a scheduled dispatch admits its occurrence, read off the three owners as they
    are before the call. */
module DispatchAdmission {
  import opened Basics
  import opened Lifecycle
  import opened SessionVaultModel
  import opened WorkGatewayModel
  import opened ExecutionKernelModel
  import opened Dispatch
  import opened Convergence

  /** The provenance compiled into the spec is the occurrence's. */
  predicate OwnSpec(occ: Occurrence) {
    && occ.compiled.Some?
    && occ.compiled.value.origin.automation == occ.automation && occ.compiled.value.origin.revision == occ.revision
    && occ.compiled.value.origin.generation == occ.generation && occ.compiled.value.origin.occurrence == occ.id
  }

  /** A stored Session is the automation's own, of this generation if it names one. */
  predicate OwnSession(v: Vault, occ: Occurrence) {
    occ.SessionId() in v.sessions ==>
      match v.sessions[occ.SessionId()]
      case Corrupt => false
      case Stored(id, kind, automation, generation, _) =>
        id == Some(occ.SessionId()) && kind == Some("automation") && automation == Some(occ.automation)
        && (generation == None || generation == Some(occ.generation))
  }

  /** The journal has the occurrence's provenance row. */
  predicate Stamped(g: Gateway, occ: Occurrence)
    requires occ.compiled.Some?
  {
    var stamp := Provenance(occ.automation, occ.revision, occ.generation, occ.id, occ.payloadDigest, occ.dedupDigest);
    exists row :: row in g.journal && row.work == occ.WorkId()
                  && row.event == ProvenanceStamped(stamp, occ.compiled.value.text)
  }

  predicate CreatedSo(g: Gateway, occ: Occurrence)
    requires occ.compiled.Some?
  {
    exists row :: row in g.journal && row.work == occ.WorkId() && row.event.WorkCreated?
                  && row.event.objective == occ.compiled.value.objective
  }

  /** A Work that is there belongs to the automation's Session, is an automation's (or was
      stamped for this occurrence), and was created with this objective. */
  predicate OwnWork(g: Gateway, occ: Occurrence)
    requires occ.compiled.Some?
  {
    occ.WorkId() in g.works ==>
      var work := g.works[occ.WorkId()];
      && work.session == Some(occ.SessionId())
      && (work.kind == Automation || (work.kind == Interactive && Stamped(g, occ)))
      && CreatedSo(g, occ)
  }

  /** Stamped already, or with nothing missing and no other stamp in the way. */
  predicate OwnStamp(g: Gateway, occ: Occurrence)
    requires occ.compiled.Some?
  {
    || Stamped(g, occ)
    || (&& occ.automation != "" && occ.revision != "" && occ.generation != 0 && occ.id != ""
        && occ.payloadDigest != "" && occ.dedupDigest != ""
        && (occ.WorkId() in g.works && g.works[occ.WorkId()].provenance.Some? ==>
            g.works[occ.WorkId()].provenance.value
            == Provenance(occ.automation, occ.revision, occ.generation, occ.id, occ.payloadDigest, occ.dedupDigest)))
  }

  /** A Run that is there is of the automation's Session and this occurrence. */
  predicate OwnRun(k: Kernel, occ: Occurrence) {
    occ.RunId() in k.runs ==>
      var run := k.runs[occ.RunId()];
      && run.session == occ.SessionId() && run.context.Readable? && run.context.origin.Some?
      && run.context.origin.value.automation == occ.automation && run.context.origin.value.revision == occ.revision
      && run.context.origin.value.generation == occ.generation && run.context.origin.value.occurrence == occ.id
  }

  /** How many writes come before the link. */
  function WritesBeforeLink(g: Gateway, occ: Occurrence): nat
    requires occ.compiled.Some?
  {
    (if occ.WorkId() in g.works then 0 else 1) + (if Stamped(g, occ) then 0 else 1)
  }

  /** A linked Work is linked to this occurrence's Run; a new link contradicts no earlier one. */
  predicate OwnLink(g: Gateway, occ: Occurrence)
    requires occ.compiled.Some?
  {
    if occ.WorkId() in g.currentRun then g.currentRun[occ.WorkId()] == occ.RunId()
    else !Conflicts(Described(g.runFields, (occ.WorkId(), occ.RunId())), g.link(g.writes + WritesBeforeLink(g, occ)))
  }

  /** The state the Run is in for the scheduler: a Run not started yet counts as queued. */
  function StateOfRun(k: Kernel, occ: Occurrence): State {
    if occ.RunId() !in k.runs || k.runs[occ.RunId()].phase.Created? || k.runs[occ.RunId()].phase.Planning? then Ready
    else k.runs[occ.RunId()].phase
  }

  /** That state is shown already, or the gateway may record it. */
  predicate OwnState(g: Gateway, k: Kernel, occ: Occurrence) {
    var work, run, to := occ.WorkId(), occ.RunId(), StateOfRun(k, occ);
    || (work in g.works && Get(g.presence, work) == Some(to))
    || (if (work, run) in g.runStates then MayRecord(g, work, run, g.runStates[(work, run)], to)
        else if work in g.currentRun then !to.Terminal()
        else MayRecord(g, work, run, Ready, to))
  }

  predicate MayRecord(g: Gateway, work: string, run: string, from: State, to: State) {
    && GatewayMay(from, to) && GatewayMay(from, Journalled(to))
    && !(from == WaitingApproval && to != WaitingApproval && (work, run) in g.approvals)
    && !(from == Recoverable && to == Running && work in g.uncertain)
  }

  predicate Admissible(s: Spine, occ: Occurrence) {
    && OwnSpec(occ) && OwnSession(s.v, occ) && OwnWork(s.g, occ) && OwnStamp(s.g, occ) && OwnRun(s.k, occ)
    && OwnLink(s.g, occ) && OwnState(s.g, s.k, occ)
  }

  // ---------------------------------------------------------------- step by step

  lemma SessionStep(v: Vault, occ: Occurrence)
    ensures var (w, ok) := EnsureSession(v, occ);
            && v.writes <= w.writes && w.disk == v.disk
            && ((forall n :: v.writes <= n < w.writes ==> v.disk(n)) ==> (ok <==> OwnSession(v, occ)))
            && (ok ==> OwnSession(w, occ) && occ.SessionId() in w.sessions)
  {
    var (w, ok) := EnsureSession(v, occ);
    if !ok && occ.SessionId() !in v.sessions {
      assert !v.disk(v.writes) && w.writes == v.writes + 1;
    }
  }

  lemma WorkStep(g: Gateway, occ: Occurrence)
    requires OwnSpec(occ)
    ensures var (h, ok) := AdmitWork(g, occ);
            && g.writes <= h.writes && h.disk == g.disk
            && (NoWriteFailed(g, h) ==> (ok <==> OwnWork(g, occ)))
            && (ok ==> Worked(g, h, occ))
  {
    if occ.WorkId() !in g.works {
      NewWork(g, occ.WorkId(), Some(occ.SessionId()), Automation, occ.compiled.value.objective);
      var (h, ok) := AdmitWork(g, occ);
      if !ok {
        assert !g.disk(g.writes) && h.writes == g.writes + 1;
      }
    }
  }

  /** What the Work step leaves. */
  ghost predicate Worked(g: Gateway, h: Gateway, occ: Occurrence)
    requires occ.compiled.Some?
  {
    && occ.WorkId() in h.works && h.currentRun == g.currentRun && h.runStates == g.runStates
    && h.runFields == g.runFields && h.approvals == g.approvals && h.uncertain == g.uncertain
    && h.disk == g.disk && h.link == g.link && (Stamped(h, occ) <==> Stamped(g, occ))
    && (if occ.WorkId() in g.works then h == g
        else h.writes == g.writes + 1 && h.works[occ.WorkId()].provenance.None?
             && Get(h.presence, occ.WorkId()) == Some(Created))
  }

  lemma StampStep(g: Gateway, occ: Occurrence)
    requires OwnSpec(occ) && occ.WorkId() in g.works
    ensures var (h, ok) := AdmitProvenance(g, occ);
            && g.writes <= h.writes && h.disk == g.disk && h.link == g.link
            && (NoWriteFailed(g, h) ==> (ok <==> OwnStamp(g, occ)))
            && (ok ==> h == g.(works := h.works, journal := h.journal, writes := h.writes)
                       && occ.WorkId() in h.works && h.writes == g.writes + if Stamped(g, occ) then 0 else 1)
  {
    assert HasProvenance(g, occ) <==> Stamped(g, occ);
    var (h, ok) := AdmitProvenance(g, occ);
    if !ok && h.journal == g.journal {
      assert !g.disk(g.writes) && h.writes == g.writes + 1;
    }
  }

  lemma RunStep(k: Kernel, occ: Occurrence)
    requires OwnSpec(occ)
    ensures var (l, ok) := AdmitRun(k, occ);
            && (ok <==> OwnRun(k, occ))
            && (ok ==> occ.RunId() in l.runs && WorkStateForPhase(l.runs[occ.RunId()].phase) == StateOfRun(k, occ))
  {
  }

  lemma LinkStep(g: Gateway, occ: Occurrence)
    requires occ.WorkId() in g.works
    ensures var (h, ok) := AdmitLink(g, occ); var key := (occ.WorkId(), occ.RunId());
            && g.writes <= h.writes && h.disk == g.disk
            && (NoWriteFailed(g, h) ==>
                (ok <==> if occ.WorkId() in g.currentRun then g.currentRun[occ.WorkId()] == occ.RunId()
                         else !Conflicts(Described(g.runFields, key), g.link(g.writes))))
            && (ok ==>
                && Get(h.currentRun, occ.WorkId()) == Some(occ.RunId()) && h.works == g.works
                && h.presence == g.presence && h.approvals == g.approvals && h.uncertain == g.uncertain
                && Get(h.runStates, key)
                   == if key in g.runStates then Some(g.runStates[key])
                      else if occ.WorkId() in g.currentRun then None else Some(Ready))
  {
    var key := (occ.WorkId(), occ.RunId());
    MergeExactly(Described(g.runFields, key), g.link(g.writes));
    assert !Blank(occ.RunId()) by {
      assert occ.RunId()[0] == 'a';
    }
    if occ.WorkId() !in g.currentRun {
      var (h, ok) := g.BindExecution(occ.WorkId(), occ.RunId());
      if h.journal == g.journal {
        assert !g.disk(g.writes) && h.writes == g.writes + 1;
      }
    }
  }

  lemma StateStep(g: Gateway, occ: Occurrence, phase: State)
    requires occ.WorkId() in g.works && Get(g.currentRun, occ.WorkId()) == Some(occ.RunId())
    ensures var (h, ok) := AdmitState(g, occ, phase); var to := WorkStateForPhase(phase);
            var key := (occ.WorkId(), occ.RunId());
            && g.writes <= h.writes && h.disk == g.disk
            && (NoWriteFailed(g, h) ==>
                (ok <==> Get(g.presence, occ.WorkId()) == Some(to)
                         || if key in g.runStates then MayRecord(g, key.0, key.1, g.runStates[key], to)
                            else !to.Terminal()))
  {
    var (h, ok) := AdmitState(g, occ, phase);
    if !ok && g.MayMove(occ.WorkId(), occ.RunId(), WorkStateForPhase(phase))
       && g.MayMove(occ.WorkId(), occ.RunId(), Journalled(WorkStateForPhase(phase))) && h.journal == g.journal {
      assert !g.disk(g.writes) && h.writes == g.writes + 1;
    }
  }

  // ---------------------------------------------------------------- the whole dispatch

  /** A dispatch of which no write fails admits its occurrence exactly if everything that
      it finds is the occurrence's own and nothing that it adds contradicts what is there. */
  lemma AdmittedExactly(s: Spine, occ: Occurrence)
    requires NothingFailed(s, Dispatched(s, occ).0)
    ensures Dispatched(s, occ).1 <==> Admissible(s, occ)
  {
    assert occ.Compiles() <==> OwnSpec(occ);
    if OwnSpec(occ) {
      Unroll(s, occ);
      SessionStep(s.v, occ);
      if EnsureSession(s.v, occ).1 {
        AfterSession(s, occ);
      }
    }
  }

  lemma AfterSession(s: Spine, occ: Occurrence)
    requires OwnSpec(occ) && EnsureSession(s.v, occ).1 && NoWriteFailed(s.g, InOrder(s, occ).0.g)
    ensures InOrder(s, occ).1
            <==> OwnWork(s.g, occ) && OwnStamp(s.g, occ) && OwnRun(s.k, occ) && OwnLink(s.g, occ)
                 && OwnState(s.g, s.k, occ)
  {
    var (g1, ok1) := AdmitWork(s.g, occ);
    WorkStep(s.g, occ);
    RunStep(s.k, occ);
    if ok1 {
      var (g2, ok2) := AdmitProvenance(g1, occ);
      StampStep(g1, occ);
      assert OwnStamp(g1, occ) <==> OwnStamp(s.g, occ);
      if ok2 && AdmitRun(s.k, occ).1 {
        AfterRun(s, g1, g2, occ);
      }
    }
  }

  /** What the Work and the provenance step leave for the steps after them. */
  ghost predicate Readied(g: Gateway, h: Gateway, occ: Occurrence)
    requires occ.compiled.Some?
  {
    && occ.WorkId() in h.works && h.currentRun == g.currentRun && h.runStates == g.runStates
    && h.runFields == g.runFields && h.approvals == g.approvals && h.uncertain == g.uncertain
    && h.link == g.link && h.disk == g.disk && h.writes == g.writes + WritesBeforeLink(g, occ)
    && (if occ.WorkId() in g.works then h.presence == g.presence else Get(h.presence, occ.WorkId()) == Some(Created))
  }

  lemma AfterRun(s: Spine, g1: Gateway, g2: Gateway, occ: Occurrence)
    requires OwnSpec(occ) && EnsureSession(s.v, occ).1 && NoWriteFailed(s.g, InOrder(s, occ).0.g)
    requires AdmitWork(s.g, occ) == (g1, true) && AdmitProvenance(g1, occ) == (g2, true) && AdmitRun(s.k, occ).1
    ensures InOrder(s, occ).1 <==> OwnLink(s.g, occ) && OwnState(s.g, s.k, occ)
  {
    WorkStep(s.g, occ);
    StampStep(g1, occ);
    RunStep(s.k, occ);
    assert Readied(s.g, g2, occ);
    LinkAndState(s, g2, AdmitRun(s.k, occ).0, occ);
  }

  lemma LinkAndState(s: Spine, g: Gateway, k: Kernel, occ: Occurrence)
    requires OwnSpec(occ) && Readied(s.g, g, occ) && occ.RunId() in k.runs
    requires WorkStateForPhase(k.runs[occ.RunId()].phase) == StateOfRun(s.k, occ)
    requires var (h, ok) := AdmitLink(g, occ);
             NoWriteFailed(s.g, if ok then AdmitState(h, occ, k.runs[occ.RunId()].phase).0 else h)
    ensures var (h, ok) := AdmitLink(g, occ);
            ok && AdmitState(h, occ, k.runs[occ.RunId()].phase).1 <==> OwnLink(s.g, occ) && OwnState(s.g, s.k, occ)
  {
    LinkStep(g, occ);
    var (h, ok) := AdmitLink(g, occ);
    if ok {
      StateStep(h, occ, k.runs[occ.RunId()].phase);
    }
  }
}
