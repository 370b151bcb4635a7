/** Crash convergence of the scheduled dispatch: however often it is stopped part way,
    one complete dispatch ends in the state of an uninterrupted one. */
module Convergence {
  import opened Basics
  import opened Lifecycle
  import opened SessionVaultModel
  import opened WorkGatewayModel
  import opened ExecutionKernelModel
  import opened Dispatch

  // ---------------------------------------------------------------- what one occurrence sees

  /** The journal rows of one Work, in order, without what links say of their Runs. */
  function Rows(journal: seq<Entry>, work: string): seq<Event> {
    if journal == [] then []
    else
      var last := journal[|journal| - 1];
      Rows(journal[..|journal| - 1], work) + (if last.work == work then [last.event] else [])
  }

  lemma RowsAppend(journal: seq<Entry>, row: Entry, work: string)
    ensures Rows(journal + [row], work) == Rows(journal, work) + (if row.work == work then [row.event] else [])
  {
    assert (journal + [row])[..|journal|] == journal;
  }

  lemma {:induction false} RowIn(journal: seq<Entry>, work: string, event: Event)
    ensures Logged(journal, work, event) <==> event in Rows(journal, work)
  {
    if journal != [] {
      RowIn(journal[..|journal| - 1], work, event);
      assert journal == journal[..|journal| - 1] + [journal[|journal| - 1]];
    }
  }

  /** The part of the three owners that belongs to one occurrence. */
  datatype View = View(
    work: Option<WorkAddress>, presence: Option<State>, current: Option<string>, runState: Option<State>,
    described: bool, run: Option<Run>, rows: seq<Event>)

  function Seen(s: Spine, occ: Occurrence): View {
    View(Get(s.g.works, occ.WorkId()), Get(s.g.presence, occ.WorkId()), Get(s.g.currentRun, occ.WorkId()),
         Get(s.g.runStates, (occ.WorkId(), occ.RunId())), (occ.WorkId(), occ.RunId()) in s.g.runFields,
         Get(s.k.runs, occ.RunId()), Rows(s.g.journal, occ.WorkId()))
  }

  // ---------------------------------------------------------------- how far a dispatch got

  function OwnRows(occ: Occurrence): seq<Event>
    requires occ.Compiles()
  {
    [WorkCreated(Some(occ.SessionId()), Automation, occ.compiled.value.objective),
     ProvenanceStamped(occ.Stamp(), occ.compiled.value.text),
     RunBound(occ.RunId())]
  }

  /** The rows the first `n` steps of an uninterrupted dispatch write. */
  function DoneRows(occ: Occurrence, n: nat): seq<Event>
    requires occ.Compiles()
  {
    if n < 2 then []
    else if n < 3 then OwnRows(occ)[..1]
    else if n < 5 then OwnRows(occ)[..2]
    else if n < 6 then OwnRows(occ)
    else OwnRows(occ) + [RunMoved(occ.RunId(), Ready)]
  }

  /** What the first `n` steps of an uninterrupted dispatch leave for the occurrence. */
  function Done(occ: Occurrence, n: nat): View
    requires occ.Compiles() && n <= STEPS
  {
    View(if n < 2 then None
         else Some(WorkAddress(Some(occ.SessionId()), Automation, if n < 3 then None else Some(occ.Stamp()))),
         if n < 2 then None else Some(if n < 6 then Created else Ready),
         if n < 5 then None else Some(occ.RunId()),
         if n < 5 then None else Some(Ready),
         n >= 5,
         if n < 4 then None
         else Some(Run(occ.SessionId(), occ.compiled.value.objective, Ready, occ.RunContext(), false)),
         DoneRows(occ, n))
  }

  /** The rows that can follow the three a dispatch writes once. */
  predicate Later(event: Event) {
    !event.WorkCreated? && !event.ProvenanceStamped? && !event.RunBound?
  }

  /** A dispatch completed at some time, and the Run may have been moved since: one Work,
      one provenance row, one link and one Run, on whose state both owners agree. */
  predicate Settled(view: View, occ: Occurrence)
    requires occ.Compiles()
  {
    && view.work == Done(occ, STEPS).work && view.current == Some(occ.RunId())
    && view.run.Some? && view.run.value.session == occ.SessionId() && view.run.value.context == occ.RunContext()
    && view.presence == view.runState == Some(WorkStateForPhase(view.run.value.phase))
    && |view.rows| >= 3 && view.rows[..3] == OwnRows(occ) && forall i :: 3 <= i < |view.rows| ==> Later(view.rows[i])
  }

  /** Missing, or the automation's own. */
  predicate SessionOpen(v: Vault, occ: Occurrence, n: nat) {
    if occ.SessionId() in v.sessions then Fits(v.sessions[occ.SessionId()], occ) else n == 0
  }

  /** The dispatch of `occ` got exactly `n` steps far; `moved` says that its Run may have
      been moved after the last step. */
  predicate At(s: Spine, occ: Occurrence, n: nat, moved: bool)
    requires occ.Compiles() && n <= STEPS
  {
    SessionOpen(s.v, occ, n) && if n == STEPS && moved then Settled(Seen(s, occ), occ) else Seen(s, occ) == Done(occ, n)
  }

  /** Every write tried between `s` and `t` succeeded. */
  ghost predicate NothingFailed(s: Spine, t: Spine) {
    NoWriteFailed(s.g, t.g) && forall n :: s.v.writes <= n < t.v.writes ==> s.v.disk(n)
  }

  // ---------------------------------------------------------------- one step

  /** A step that was done before changes nothing. */
  lemma StepDone(s: Spine, occ: Occurrence, i: nat, moved: bool, n: nat)
    requires occ.Compiles() && n < i <= STEPS && At(s, occ, i, moved)
    ensures Step(s, occ, n) == (s, true)
  {
    var view := Seen(s, occ);
    if n == 1 || n == 2 {
      assert view.rows[0] == OwnRows(occ)[0];
      RowIn(s.g.journal, occ.WorkId(), view.rows[0]);
      if n == 2 {
        assert view.rows[1] == OwnRows(occ)[1];
        RowIn(s.g.journal, occ.WorkId(), view.rows[1]);
      }
    }
  }

  lemma StepSession(s: Spine, occ: Occurrence, moved: bool)
    requires occ.Compiles() && At(s, occ, 0, moved)
    ensures var (t, ok) := Step(s, occ, 0);
            && t.g == s.g && t.k == s.k
            && (if ok then At(t, occ, 1, moved) else At(t, occ, 0, moved) && !NothingFailed(s, t))
  {
    var (t, ok) := Step(s, occ, 0);
    if !ok {
      assert !s.v.disk(s.v.writes) && t.v.writes == s.v.writes + 1;
    }
  }

  lemma StepWork(s: Spine, occ: Occurrence, moved: bool)
    requires occ.Compiles() && At(s, occ, 1, moved)
    ensures var (t, ok) := Step(s, occ, 1);
            if ok then At(t, occ, 2, moved) else At(t, occ, 1, moved) && !NothingFailed(s, t)
  {
    RowsAppend(s.g.journal, s.g.Row(occ.WorkId(), OwnRows(occ)[0]), occ.WorkId());
    FirstWork(s.g, occ.WorkId(), occ.SessionId(), occ.compiled.value.objective);
    assert OwnRows(occ)[..1] == [] + [OwnRows(occ)[0]];
    var (t, ok) := Step(s, occ, 1);
    if !ok {
      assert !s.g.disk(s.g.writes) && t.g.writes == s.g.writes + 1;
    }
  }

  /** Creating a Work nothing is known of fails only with the write. */
  lemma FirstWork(g: Gateway, work: string, session: string, objective: string)
    requires work !in g.works && work !in g.presence
    ensures g.CreateWork(work, Some(session), Automation, objective) ==
            if g.disk(g.writes)
            then (g.(works := g.works[work := WorkAddress(Some(session), Automation, None)],
                     presence := g.presence[work := Created], writes := g.writes + 1,
                     journal := g.journal + [g.Row(work, WorkCreated(Some(session), Automation, objective))]), true)
            else (g.(writes := g.writes + 1), false)
  {
    NewWork(g, work, Some(session), Automation, objective);
    assert g.presence - {work} == g.presence;
  }

  lemma StepProvenance(s: Spine, occ: Occurrence, moved: bool)
    requires occ.Compiles() && occ.Stamp().Complete() && At(s, occ, 2, moved)
    ensures var (t, ok) := Step(s, occ, 2);
            if ok then At(t, occ, 3, moved) else At(t, occ, 2, moved) && !NothingFailed(s, t)
  {
    var (t, ok) := Step(s, occ, 2);
    RowIn(s.g.journal, occ.WorkId(), OwnRows(occ)[1]);
    RowsAppend(s.g.journal, s.g.Row(occ.WorkId(), OwnRows(occ)[1]), occ.WorkId());
    if !ok {
      assert !s.g.disk(s.g.writes) && t.g.writes == s.g.writes + 1;
    }
  }

  lemma StepRun(s: Spine, occ: Occurrence, moved: bool)
    requires occ.Compiles() && At(s, occ, 3, moved)
    ensures var (t, ok) := Step(s, occ, 3); ok && At(t, occ, 4, moved)
  {
  }

  lemma StepLink(s: Spine, occ: Occurrence, moved: bool)
    requires occ.Compiles() && At(s, occ, 4, moved)
    ensures var (t, ok) := Step(s, occ, 4);
            if ok then At(t, occ, 5, moved) else At(t, occ, 4, moved) && !NothingFailed(s, t)
  {
    assert occ.RunId()[0] == 'a';
    assert (occ.WorkId(), occ.RunId()) !in s.g.runFields;
    FirstLink(s.g, occ.WorkId(), occ.RunId());
    var (t, ok) := Step(s, occ, 4);
    RowsAppend(s.g.journal, s.g.Row(occ.WorkId(), OwnRows(occ)[2]), occ.WorkId());
    assert OwnRows(occ)[..2] + [OwnRows(occ)[2]] == OwnRows(occ);
  }

  /** Pointing a Work at its first Run fails only with the write. */
  lemma FirstLink(g: Gateway, work: string, run: string)
    requires work in g.works && work !in g.currentRun && !Blank(run)
    requires (work, run) !in g.runStates && (work, run) !in g.runFields
    ensures g.BindExecution(work, run) ==
            if g.disk(g.writes)
            then (g.(currentRun := g.currentRun[work := run], runStates := g.runStates[(work, run) := Ready],
                     runFields := g.runFields[(work, run) := Merge(map[], g.link(g.writes)).0],
                     journal := g.journal + [g.Row(work, RunBound(run))], writes := g.writes + 1), true)
            else (g.(writes := g.writes + 1), false)
  {
    MergeExactly(map[], g.link(g.writes));
  }

  lemma StepState(s: Spine, occ: Occurrence, moved: bool)
    requires occ.Compiles() && At(s, occ, 5, moved)
    ensures var (t, ok) := Step(s, occ, 5);
            if ok then At(t, occ, 6, moved) else At(t, occ, 5, moved) && !NothingFailed(s, t)
  {
    var (t, ok) := Step(s, occ, 5);
    RowsAppend(s.g.journal, s.g.Row(occ.WorkId(), RunMoved(occ.RunId(), Ready)), occ.WorkId());
    if ok {
      assert Seen(t, occ) == Done(occ, 6);
      DoneIsSettled(occ);
    } else {
      assert Seen(t, occ) == Seen(s, occ);
      assert !s.g.disk(s.g.writes) && t.g.writes == s.g.writes + 1;
    }
  }

  /** What an uninterrupted dispatch leaves is settled. */
  lemma DoneIsSettled(occ: Occurrence)
    requires occ.Compiles()
    ensures Settled(Done(occ, STEPS), occ)
  {
    assert Done(occ, STEPS).rows[..3] == OwnRows(occ);
  }

  // ---------------------------------------------------------------- one attempt

  /** Writes are counted up, stored Sessions stay, and no existing Run is touched: a Run
      that has advanced is never moved back. */
  ghost predicate Grows(s: Spine, t: Spine) {
    && s.v.disk == t.v.disk && s.g.disk == t.g.disk && s.v.writes <= t.v.writes && s.g.writes <= t.g.writes
    && (forall id :: id in s.v.sessions ==> id in t.v.sessions && t.v.sessions[id] == s.v.sessions[id])
    && (forall run :: run in s.k.runs ==> run in t.k.runs && t.k.runs[run] == s.k.runs[run])
  }

  /** What any part of a dispatch does to the gateway: bindings and the pointers of Works that
      have one stay, Works keep their owner, and the journal grows. */
  ghost predicate OnlyAdds(g: Gateway, h: Gateway) {
    && g.disk == h.disk && g.writes <= h.writes && h.bindings == g.bindings && WorksKept(g.works, h.works)
    && forall w :: w in g.currentRun ==> w in h.currentRun && h.currentRun[w] == g.currentRun[w]
  }

  lemma WorkAdds(g: Gateway, occ: Occurrence)
    requires occ.Compiles()
    ensures OnlyAdds(g, AdmitWork(g, occ).0)
  {
    if occ.WorkId() !in g.works {
      CreateAdds(g, occ.WorkId(), occ.SessionId(), occ.compiled.value.objective);
    }
  }

  lemma CreateAdds(g: Gateway, work: string, session: string, objective: string)
    requires work !in g.works
    ensures OnlyAdds(g, g.CreateWork(work, Some(session), Automation, objective).0)
  {
  }

  lemma ProvenanceAdds(g: Gateway, occ: Occurrence)
    requires occ.Compiles()
    ensures OnlyAdds(g, AdmitProvenance(g, occ).0)
  {
  }

  lemma LinkAdds(g: Gateway, occ: Occurrence)
    ensures OnlyAdds(g, AdmitLink(g, occ).0)
  {
    if occ.WorkId() !in g.currentRun {
      FirstLinkAdds(g, occ.WorkId(), occ.RunId());
    }
  }

  lemma FirstLinkAdds(g: Gateway, work: string, run: string)
    requires work !in g.currentRun
    ensures OnlyAdds(g, g.BindExecution(work, run).0)
  {
    if !(work !in g.works || Blank(run) || g.Replaced(work, run)) && g.disk(g.writes) {
      var next := g.Append(work, RunBound(run)).0;
      LinkedAdds(g, next, work, run, Merge(Described(g.runFields, (work, run)), g.link(g.writes)));
    }
  }

  lemma LinkedAdds(g: Gateway, next: Gateway, work: string, run: string, merged: (map<string, string>, bool))
    requires work !in g.currentRun && g.writes <= next.writes
    requires next == g.(journal := next.journal, writes := next.writes)
    ensures OnlyAdds(g, next.Linked(work, run, merged).0)
  {
  }

  lemma StateAdds(g: Gateway, occ: Occurrence, phase: State)
    ensures OnlyAdds(g, AdmitState(g, occ, phase).0)
  {
  }

  ghost predicate Adds(s: Spine, t: Spine) {
    OnlyAdds(s.g, t.g) && Grows(s, t)
  }

  lemma StepAdds(s: Spine, occ: Occurrence, n: nat)
    requires occ.Compiles()
    ensures Adds(s, Step(s, occ, n).0)
  {
    match n
    case 0 =>
    case 1 => WorkAdds(s.g, occ);
    case 2 => ProvenanceAdds(s.g, occ);
    case 3 =>
    case 4 => LinkAdds(s.g, occ);
    case _ =>
      if occ.RunId() in s.k.runs {
        StateAdds(s.g, occ, s.k.runs[occ.RunId()].phase);
      }
  }

  lemma AddsTransitive(s: Spine, t: Spine, u: Spine)
    requires Adds(s, t) && Adds(t, u)
    ensures Adds(s, u)
  {
  }

  lemma {:induction false} AttemptAdds(s: Spine, occ: Occurrence, n: nat)
    requires occ.Compiles()
    ensures Adds(s, Attempt(s, occ, n).0)
  {
    if n > 0 {
      AttemptAdds(s, occ, n - 1);
      var (t, ok) := Attempt(s, occ, n - 1);
      if ok {
        StepAdds(t, occ, n - 1);
        AddsTransitive(s, t, Attempt(s, occ, n).0);
      }
    }
  }

  lemma AttemptGrows(s: Spine, occ: Occurrence, n: nat)
    requires occ.Compiles()
    ensures Grows(s, Attempt(s, occ, n).0)
  {
    AttemptAdds(s, occ, n);
  }

  /** The next step either succeeds or leaves the dispatch where it was. */
  lemma StepNext(s: Spine, occ: Occurrence, moved: bool, n: nat)
    requires occ.Compiles() && occ.Stamp().Complete() && n < STEPS && At(s, occ, n, moved)
    ensures var (t, ok) := Step(s, occ, n);
            if ok then At(t, occ, n + 1, moved) else At(t, occ, n, moved) && !NothingFailed(s, t)
  {
    match n
    case 0 => StepSession(s, occ, moved);
    case 1 => StepWork(s, occ, moved);
    case 2 => StepProvenance(s, occ, moved);
    case 3 => StepRun(s, occ, moved);
    case 4 => StepLink(s, occ, moved);
    case 5 => StepState(s, occ, moved);
  }

  /** Either the step was done before, or it is the next one. */
  lemma StepFrom(s: Spine, occ: Occurrence, i: nat, moved: bool, n: nat) returns (j: nat)
    requires occ.Compiles() && occ.Stamp().Complete() && n < STEPS && n <= i <= STEPS && At(s, occ, i, moved)
    ensures i <= j <= STEPS && At(Step(s, occ, n).0, occ, j, moved)
    ensures if Step(s, occ, n).1 then n < j else !NothingFailed(s, Step(s, occ, n).0)
    ensures n < i ==> Step(s, occ, n) == (s, true)
  {
    if n < i {
      StepDone(s, occ, i, moved, n);
      j := i;
    } else {
      StepNext(s, occ, moved, n);
      j := if Step(s, occ, n).1 then n + 1 else n;
    }
  }

  lemma FailedLater(s: Spine, t: Spine, u: Spine)
    requires Grows(s, t) && !NothingFailed(t, u)
    ensures !NothingFailed(s, u)
  {
  }

  /** Repeating finished steps changes nothing. */
  lemma {:induction false} AttemptDone(s: Spine, occ: Occurrence, i: nat, moved: bool, n: nat)
    requires occ.Compiles() && n <= i <= STEPS && At(s, occ, i, moved)
    ensures Attempt(s, occ, n) == (s, true)
  {
    if n > 0 {
      AttemptDone(s, occ, i, moved, n - 1);
      StepDone(s, occ, i, moved, n - 1);
    }
  }

  /** An attempt of `n` steps picks up where earlier ones stopped. It only stops short of
      its `n` steps when a write fails. */
  lemma {:induction false} AttemptAt(s: Spine, occ: Occurrence, i: nat, moved: bool, n: nat) returns (j: nat)
    requires occ.Compiles() && occ.Stamp().Complete() && n <= STEPS && i <= STEPS && At(s, occ, i, moved)
    ensures i <= j <= STEPS && At(Attempt(s, occ, n).0, occ, j, moved)
    ensures if Attempt(s, occ, n).1 then n <= j else !NothingFailed(s, Attempt(s, occ, n).0)
    decreases n
  {
    if n <= i {
      AttemptDone(s, occ, i, moved, n);
      return i;
    }
    j := AttemptAt(s, occ, i, moved, n - 1);
    AttemptGrows(s, occ, n - 1);
    j := OneMoreStep(s, Attempt(s, occ, n - 1), occ, j, moved, n - 1);
  }

  lemma OneMoreStep(s: Spine, r: (Spine, bool), occ: Occurrence, i: nat, moved: bool, n: nat) returns (j: nat)
    requires occ.Compiles() && occ.Stamp().Complete() && n < STEPS && i <= STEPS && At(r.0, occ, i, moved)
    requires Grows(s, r.0) && if r.1 then n <= i else !NothingFailed(s, r.0)
    ensures var (u, more) := Onward(r, occ, n);
            i <= j <= STEPS && At(u, occ, j, moved) && if more then n < j else !NothingFailed(s, u)
  {
    j := i;
    if r.1 {
      j := StepFrom(r.0, occ, i, moved, n);
      if !Step(r.0, occ, n).1 {
        FailedLater(s, r.0, Step(r.0, occ, n).0);
      }
    }
  }

  // ---------------------------------------------------------------- other occurrences

  /** Two occurrences that share neither Work nor Run, and a Session only if it is the same
      automation's. */
  predicate Apart(a: Occurrence, b: Occurrence) {
    && a.WorkId() != b.WorkId() && a.RunId() != b.RunId()
    && (a.SessionId() == b.SessionId() ==> a.automation == b.automation && a.generation == b.generation)
  }

  /** A gateway step for another Work adds at most a row of that Work, and shows nothing here. */
  predicate WorkUntouched(g: Gateway, h: Gateway, work: string, run: string) {
    && Get(h.works, work) == Get(g.works, work) && Get(h.presence, work) == Get(g.presence, work)
    && Get(h.currentRun, work) == Get(g.currentRun, work)
        && Get(h.runStates, (work, run)) == Get(g.runStates, (work, run))
    && ((work, run) in h.runFields <==> (work, run) in g.runFields)
    && Rows(h.journal, work) == Rows(g.journal, work)
  }

  lemma OtherRow(g: Gateway, h: Gateway, row: Entry, work: string)
    requires row.work != work
    requires h.journal == g.journal || h.journal == g.journal + [row]
    ensures Rows(h.journal, work) == Rows(g.journal, work)
  {
    if h.journal != g.journal {
      RowsAppend(g.journal, row, work);
    }
  }

  lemma CreateApart(g: Gateway, other: string, session: string, objective: string, work: string, run: string)
    requires other != work
    ensures WorkUntouched(g, g.CreateWork(other, Some(session), Automation, objective).0, work, run)
  {
    var h := g.CreateWork(other, Some(session), Automation, objective).0;
    if other !in g.works {
      NewWork(g, other, Some(session), Automation, objective);
    }
    OtherRow(g, h, g.Row(other, WorkCreated(Some(session), Automation, objective)), work);
  }

  lemma StampApart(g: Gateway, other: string, stamp: Provenance, compiled: string, work: string, run: string)
    requires other != work
    ensures WorkUntouched(g, g.StampProvenance(other, stamp, compiled).0, work, run)
  {
    var h := g.StampProvenance(other, stamp, compiled).0;
    OtherRow(g, h, g.Row(other, ProvenanceStamped(stamp, compiled)), work);
  }

  lemma BindApart(g: Gateway, other: string, otherRun: string, work: string, run: string)
    requires other != work
    ensures WorkUntouched(g, g.BindExecution(other, otherRun).0, work, run)
  {
    var next := g.Append(other, RunBound(otherRun)).0;
    OtherRow(g, next, g.Row(other, RunBound(otherRun)), work);
    if !(other !in g.works || Blank(otherRun) || g.Replaced(other, otherRun)) {
      LinkedApart(g, next, other, otherRun, Merge(Described(g.runFields, (other, otherRun)), g.link(g.writes)), work,
                  run);
    }
  }

  lemma LinkedApart(g: Gateway, next: Gateway, other: string, otherRun: string, merged: (map<string, string>, bool),
                    work: string, run: string)
    requires other != work && WorkUntouched(g, next, work, run)
    ensures WorkUntouched(g, next.Linked(other, otherRun, merged).0, work, run)
  {
  }

  lemma RecordApart(g: Gateway, other: string, otherRun: string, to: State, work: string, run: string)
    requires other != work
    ensures WorkUntouched(g, g.RecordTransition(other, otherRun, to).0, work, run)
  {
    var (h, ok) := g.RecordTransition(other, otherRun, to);
    OtherRow(g, h, g.Row(other, RunMoved(otherRun, Journalled(to))), work);
    if ok {
      RecordedMove(g, h, other, otherRun, to);
      MovedApart(g, h, other, otherRun, to, work, run);
    }
  }

  lemma MovedApart(g: Gateway, h: Gateway, other: string, otherRun: string, to: State, work: string, run: string)
    requires other != work && Rows(h.journal, work) == Rows(g.journal, work)
    requires h == g.(runStates := g.runStates[(other, otherRun) := to], presence := g.presence[other := to],
                     journal := h.journal, writes := h.writes)
    ensures WorkUntouched(g, h, work, run)
  {
  }

  lemma StepApart(s: Spine, other: Occurrence, n: nat, occ: Occurrence, i: nat, moved: bool)
    requires other.Compiles() && occ.Compiles() && Apart(other, occ) && i <= STEPS && At(s, occ, i, moved)
    ensures At(Step(s, other, n).0, occ, i, moved)
  {
    var t := Step(s, other, n).0;
    match n
    case 0 =>
    case 1 =>
      CreateApart(s.g, other.WorkId(), other.SessionId(), other.compiled.value.objective, occ.WorkId(), occ.RunId());
    case 2 => StampApart(s.g, other.WorkId(), other.Stamp(), other.compiled.value.text, occ.WorkId(), occ.RunId());
    case 3 =>
    case 4 => BindApart(s.g, other.WorkId(), other.RunId(), occ.WorkId(), occ.RunId());
    case _ =>
      if other.RunId() in s.k.runs {
        RecordApart(s.g, other.WorkId(), other.RunId(), WorkStateForPhase(s.k.runs[other.RunId()].phase),
                    occ.WorkId(), occ.RunId());
      }
    assert Seen(t, occ) == Seen(s, occ);
  }

  lemma {:induction false} AttemptApart(s: Spine, other: Occurrence, n: nat, occ: Occurrence, i: nat, moved: bool)
    requires other.Compiles() && occ.Compiles() && Apart(other, occ) && i <= STEPS && At(s, occ, i, moved)
    ensures At(Attempt(s, other, n).0, occ, i, moved)
  {
    if n > 0 {
      AttemptApart(s, other, n - 1, occ, i, moved);
      StepApart(Attempt(s, other, n - 1).0, other, n - 1, occ, i, moved);
    }
  }

  // ---------------------------------------------------------------- whole runs

  /** What can happen between two moments: an attempt at some occurrence is made and
      stopped after `steps` steps, a Run is moved by both owners, or something happens
      that none of this occurrence's records shows. */
  datatype Act = Tried(occurrence: Occurrence, steps: nat) | MovedTo(phase: State) | Elsewhere

  ghost predicate Next(s: Spine, act: Act, t: Spine, occ: Occurrence)
    requires occ.Compiles()
  {
    match act
    case Tried(other, steps) =>
      steps <= STEPS && other.Compiles() && (other == occ || Apart(other, occ)) && t == Attempt(s, other, steps).0
    case MovedTo(phase) =>
      && s.g.RecordTransition(occ.WorkId(), occ.RunId(), phase) == (t.g, true)
      && s.k.Transition(occ.RunId(), PhaseForWorkState(phase)) == (t.k, true)
      && WorkStateForPhase(PhaseForWorkState(phase)) == phase && t.v == s.v
    case Elsewhere =>
      Seen(t, occ) == Seen(s, occ) && Get(t.v.sessions, occ.SessionId()) == Get(s.v.sessions, occ.SessionId())
  }

  ghost predicate Trace(states: seq<Spine>, acts: seq<Act>, occ: Occurrence)
    requires occ.Compiles()
  {
    && |states| == |acts| + 1
    && forall i :: 0 <= i < |acts| ==> Next(states[i], acts[i], states[i + 1], occ)
  }

  lemma MoveSettled(s: Spine, phase: State, t: Spine, occ: Occurrence, i: nat)
    requires occ.Compiles() && i <= STEPS && At(s, occ, i, true) && Next(s, MovedTo(phase), t, occ)
    ensures i >= 5 && At(t, occ, STEPS, true)
  {
    var row := s.g.Row(occ.WorkId(), RunMoved(occ.RunId(), Journalled(phase)));
    RowsAppend(s.g.journal, row, occ.WorkId());
    RecordedMove(s.g, t.g, occ.WorkId(), occ.RunId(), phase);
    RowAfterOwn(Seen(s, occ).rows, row.event, occ);
  }

  lemma RowAfterOwn(rows: seq<Event>, event: Event, occ: Occurrence)
    requires occ.Compiles() && |rows| >= 3 && rows[..3] == OwnRows(occ) && Later(event)
    requires forall i :: 3 <= i < |rows| ==> Later(rows[i])
    ensures (rows + [event])[..3] == OwnRows(occ)
    ensures forall i :: 3 <= i < |rows + [event]| ==> Later((rows + [event])[i])
  {
    assert (rows + [event])[..3] == rows[..3];
  }

  /** The progress of an occurrence is never lost, whatever else happens. */
  lemma {:induction false} ProgressKept(states: seq<Spine>, acts: seq<Act>, occ: Occurrence, moved: bool)
    returns (j: nat)
    requires occ.Compiles() && occ.Stamp().Complete() && Trace(states, acts, occ) && At(states[0], occ, 0, moved)
    requires !moved ==> forall i :: 0 <= i < |acts| ==> !acts[i].MovedTo?
    ensures j <= STEPS && At(states[|acts|], occ, j, moved)
    decreases |acts|
  {
    if acts == [] {
      return 0;
    }
    var n := |acts| - 1;
    forall i | 0 <= i < n ensures Next(states[..n + 1][i], acts[..n][i], states[..n + 1][i + 1], occ) {
      assert Next(states[i], acts[i], states[i + 1], occ);
    }
    j := ProgressKept(states[..n + 1], acts[..n], occ, moved);
    assert Next(states[n], acts[n], states[n + 1], occ);
    match acts[n]
    case Tried(other, steps) =>
      if other == occ {
        j := AttemptAt(states[n], occ, j, moved, steps);
      } else {
        AttemptApart(states[n], other, steps, occ, j, moved);
      }
    case MovedTo(phase) =>
      MoveSettled(states[n], phase, states[n + 1], occ, j);
      j := STEPS;
    case Elsewhere =>
  }

  /** Crash convergence. Start where nothing of the occurrence exists; interrupt any number
      of dispatches, of this and other occurrences, after any step, and move the Run once it
      is there. A complete dispatch whose writes succeed is then admitted, leaves exactly
      one Work, one provenance row, one Run and one link, and a further one changes nothing. */
  lemma Converges(states: seq<Spine>, acts: seq<Act>, occ: Occurrence)
    requires occ.Compiles() && occ.Stamp().Complete() && Trace(states, acts, occ) && At(states[0], occ, 0, true)
    requires NothingFailed(states[|acts|], Dispatched(states[|acts|], occ).0)
    ensures var (t, ok) := Dispatched(states[|acts|], occ);
            ok && Settled(Seen(t, occ), occ) && Grows(states[|acts|], t) && Dispatched(t, occ) == (t, true)
  {
    var s := states[|acts|];
    var j := ProgressKept(states, acts, occ, true);
    var j' := AttemptAt(s, occ, j, true, STEPS);
    AttemptGrows(s, occ, STEPS);
    AttemptDone(Dispatched(s, occ).0, occ, STEPS, true, STEPS);
  }

  /** As long as nobody moves the Run, the interrupted dispatches end in exactly what one
      uninterrupted dispatch leaves, row for row. */
  lemma ConvergesExactly(states: seq<Spine>, acts: seq<Act>, occ: Occurrence)
    requires occ.Compiles() && occ.Stamp().Complete() && Trace(states, acts, occ) && At(states[0], occ, 0, false)
    requires forall i :: 0 <= i < |acts| ==> !acts[i].MovedTo?
    requires NothingFailed(states[|acts|], Dispatched(states[|acts|], occ).0)
    requires NothingFailed(states[0], Dispatched(states[0], occ).0)
    ensures var (t, ok) := Dispatched(states[|acts|], occ); var (u, ok') := Dispatched(states[0], occ);
            ok && ok' && Seen(t, occ) == Seen(u, occ) == Done(occ, STEPS)
  {
    var j := ProgressKept(states, acts, occ, false);
    var _ := AttemptAt(states[|acts|], occ, j, false, STEPS);
    var _ := AttemptAt(states[0], occ, 0, false, STEPS);
  }

  /** A dispatch never touches a Run that exists, whatever state it is in and however far
      the dispatch gets. */
  lemma NeverMovesBack(s: Spine, occ: Occurrence, n: nat, run: string)
    requires occ.Compiles() && run in s.k.runs
    ensures Get(Attempt(s, occ, n).0.k.runs, run) == Some(s.k.runs[run])
  {
    AttemptGrows(s, occ, n);
  }

  /** A stamp the Work refuses (incomplete, or contradicting the Work's own) is refused once:
      its row stays in the journal, and the next dispatch takes that row for the stamp. */
  lemma RefusedStampPassesNextTime(s: Spine, occ: Occurrence)
    requires occ.Compiles() && occ.WorkId() in s.g.works && !HasProvenance(s.g, occ) && s.g.disk(s.g.writes)
    ensures var (t, ok) := Step(s, occ, 2); var kept := s.g.works[occ.WorkId()].provenance;
            && (ok <==> occ.Stamp().Complete() && (kept.None? || kept.value == occ.Stamp()))
            && (!ok ==> t.g.works == s.g.works && Step(t, occ, 2) == (t, true))
  {
    var t := Step(s, occ, 2).0;
    assert s.g.Row(occ.WorkId(), ProvenanceStamped(occ.Stamp(), occ.compiled.value.text)) in t.g.journal;
  }
}
