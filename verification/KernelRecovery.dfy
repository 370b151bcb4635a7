/** Restart, second half: the kernel is rebuilt from the reopened gateway's journal, and it
    has its own opinion of which lifecycle rows make sense. */
module KernelRecovery {
  import opened Basics
  import opened Lifecycle
  import opened WorkGatewayModel
  import opened Recovery

  // ---------------------------------------------------------------- one Run

  /** The lifecycle rows of one Run, in order. */
  function Life(journal: seq<Entry>, work: string, run: string): seq<State> {
    if journal == [] then []
    else
      var last := journal[|journal| - 1];
      Life(journal[..|journal| - 1], work, run)
      + (if last.work == work && last.event.RunMoved? && last.event.run == run then [last.event.to] else [])
  }

  /** `phase_transition_legal`: the kernel's table, a little wider, between two rows. */
  predicate RowsMay(from: State, to: State) {
    from == to || KernelMay(from, to) || (from.Ready? && (to.Waiting() || to.Checkpointed?))
  }

  predicate LegalLife(life: seq<State>) {
    forall i :: 0 < i < |life| ==> RowsMay(life[i - 1], life[i])
  }

  /** The Run has a queued or a started row. */
  predicate Started(life: seq<State>) {
    Ready in life || Running in life
  }

  /** `recover_one_run`, as far as the lifecycle rows decide it. */
  predicate RunRecovers(life: seq<State>) {
    && life != [] && LegalLife(life)
    && (life[|life| - 1].Terminal() ==> Started(life))
  }

  /** The phase the Run comes back in. */
  function RecoveredPhase(life: seq<State>): State
    requires life != []
  {
    life[|life| - 1]
  }

  // ---------------------------------------------------------------- the whole kernel

  ghost predicate RunsRecover(journal: seq<Entry>, p: Projection) {
    forall key :: key in p.runs ==> RunRecovers(Life(journal, key.0, key.1))
  }

  /** A Run belongs to one Work. */
  ghost predicate RunsApart(runs: set<(string, string)>) {
    forall i, j :: i in runs && j in runs && i.1 == j.1 ==> i == j
  }

  /** The state shown for a Work is that of its current Run. */
  predicate ShowsItsRun(journal: seq<Entry>, p: Projection, w: string)
    requires w in p.currentRun
  {
    var life := Life(journal, w, p.currentRun[w]);
    life != [] && w in p.presence ==> p.presence[w] == RecoveredPhase(life)
  }

  ghost predicate AllShowTheirRuns(journal: seq<Entry>, p: Projection) {
    forall w :: w in p.currentRun ==> ShowsItsRun(journal, p, w)
  }

  ghost predicate ActiveProvided(bindings: map<string, AgentBinding>) {
    forall id :: id in bindings && bindings[id].state.Active? ==> bindings[id].provider.Some?
  }

  /** `recover_from_work_gateway`. */
  ghost predicate KernelRecovers(journal: seq<Entry>) {
    Opens(journal) &&
    var p := Replay(journal).value;
    RunsRecover(journal, p) && RunsApart(p.runs) && AllShowTheirRuns(journal, p) && ActiveProvided(p.bindings)
  }

  // ---------------------------------------------------------------- rows and states

  lemma LifeAppend(journal: seq<Entry>, row: Entry, work: string, run: string)
    ensures Life(journal + [row], work, run)
            == Life(journal, work, run)
               + (if row.work == work && row.event.RunMoved? && row.event.run == run then [row.event.to] else [])
  {
    assert (journal + [row])[..|journal|] == journal;
  }

  /** The replayed state of a Run is its last row. */
  lemma {:induction false} LifeLast(journal: seq<Entry>, work: string, run: string)
    requires Replay(journal).Some?
    ensures var states := Replay(journal).value.runStates; var life := Life(journal, work, run);
            if (work, run) in states then life != [] && life[|life| - 1] == states[(work, run)] else life == []
  {
    if journal != [] {
      LifeLast(journal[..|journal| - 1], work, run);
      RowState(Replay(journal[..|journal| - 1]).value, journal[|journal| - 1], work, run);
    }
  }

  lemma RowState(p: Projection, row: Entry, work: string, run: string)
    requires ApplyRow(p, row).Some?
    ensures Get(ApplyRow(p, row).value.runStates, (work, run))
            == if row.work == work && row.event.RunMoved? && row.event.run == run then Some(row.event.to)
               else Get(p.runStates, (work, run))
  {
    match row.event
    case RunMoved(_, _) =>
    case _ =>
  }

  /** Started, or waiting for it: a Run's first row is never final. */
  lemma {:induction false} FirstRowLives(journal: seq<Entry>, work: string, run: string)
    requires Replay(journal).Some?
    ensures var life := Life(journal, work, run); life != [] ==> !life[0].Terminal()
  {
    if journal != [] {
      FirstRowLives(journal[..|journal| - 1], work, run);
      LifeLast(journal[..|journal| - 1], work, run);
    }
  }

  ghost predicate LivesLegal(journal: seq<Entry>) {
    forall work, run :: LegalLife(Life(journal, work, run))
  }

  /** The moves between live states that the gateway accepts and a restart does not. */
  predicate Strands(from: State, to: State) {
    match from
    case WaitingTool | WaitingApproval | WaitingUser => to.Recoverable? || (to.Waiting() && to != from)
    case Checkpointed => to.Paused? || to.Recoverable?
    case Paused => to.Failed? || to.Recoverable?
    case _ => false
  }

  /** `Strands` is the difference of the gateway's table and the one of the restart, seen
      through the rows the two states are journaled as. */
  lemma StrandsIsTableDifference(from: State, to: State)
    requires GatewayMay(from, to) && !from.Created? && !from.Planning?
    ensures Strands(from, to) <==> !RowsMay(Journalled(from), Journalled(to))
  {
  }

  /** The restart takes one move between rows that the gateway never makes. */
  lemma RowsBeyondGateway(from: State, to: State)
    ensures RowsMay(from, to) && !GatewayMay(from, to) <==> from == Ready && to == Checkpointed
    ensures KernelMay(from, to) ==> RowsMay(from, to)
  {
  }

  /** The call records such a move of a Run that has a row. */
  predicate Stranding(g: Gateway, call: Call) {
    Replay(g.journal).Some? && call.Record? && g.RecordTransition(call.work, call.run, call.to).1
    && (call.work, call.run) in Replay(g.journal).value.runStates
    && (call.work, call.run) in g.runStates && Strands(g.runStates[(call.work, call.run)], call.to)
  }

  lemma LegalLifeAppend(life: seq<State>, to: State)
    ensures LegalLife(life + [to]) <==> LegalLife(life) && (life != [] ==> RowsMay(life[|life| - 1], to))
  {
    var longer := life + [to];
    if LegalLife(longer) {
      forall i | 0 < i < |life| ensures RowsMay(life[i - 1], life[i]) {
        assert RowsMay(longer[i - 1], longer[i]);
      }
      if life != [] {
        assert RowsMay(longer[|life| - 1], longer[|life|]);
      }
    }
  }

  /** Rows other than lifecycle rows change no life. */
  lemma OtherRowsLive(journal: seq<Entry>, row: Entry)
    requires !row.event.RunMoved?
    ensures LivesLegal(journal + [row]) <==> LivesLegal(journal)
  {
    forall work, run ensures Life(journal + [row], work, run) == Life(journal, work, run) {
      LifeAppend(journal, row, work, run);
    }
  }

  lemma LifecycleRowLives(journal: seq<Entry>, row: Entry)
    requires row.event.RunMoved?
    ensures LivesLegal(journal + [row])
            <==> LivesLegal(journal) && LegalLife(Life(journal, row.work, row.event.run) + [row.event.to])
  {
    var own := Life(journal, row.work, row.event.run);
    forall work, run
      ensures Life(journal + [row], work, run)
              == if work == row.work && run == row.event.run then own + [row.event.to] else Life(journal, work, run)
    {
      LifeAppend(journal, row, work, run);
    }
    LegalLifeAppend(own, row.event.to);
    if LivesLegal(journal + [row]) {
      assert LegalLife(Life(journal + [row], row.work, row.event.run));
      forall work, run ensures LegalLife(Life(journal, work, run)) {
        assert LegalLife(Life(journal + [row], work, run));
      }
    }
  }

  lemma RecordLives(g: Gateway, work: string, run: string, to: State)
    requires Restorable(g)
    ensures LivesLegal(g.RecordTransition(work, run, to).0.journal)
            <==> LivesLegal(g.journal) && !Stranding(g, Record(work, run, to))
  {
    var (h, ok) := g.RecordTransition(work, run, to);
    if ok {
      RecordedRow(g, work, run, to);
      LifecycleRowLives(g.journal, g.Row(work, RunMoved(run, Journalled(to))));
      LifeLast(g.journal, work, run);
      LegalLifeAppend(Life(g.journal, work, run), Journalled(to));
      StrandsIsTableDifference(g.runStates[(work, run)], to);
    } else {
      assert h.journal == g.journal;
    }
  }

  lemma RecordedRow(g: Gateway, work: string, run: string, to: State)
    requires Restorable(g) && g.RecordTransition(work, run, to).1
    ensures g.RecordTransition(work, run, to).0.journal == g.journal + [g.Row(work, RunMoved(run, Journalled(to)))]
    ensures (work, run) in g.runStates && GatewayMay(g.runStates[(work, run)], to)
    ensures !g.runStates[(work, run)].Created? && !g.runStates[(work, run)].Planning?
    ensures var states := Replay(g.journal).value.runStates;
            (work, run) in states ==> states[(work, run)] == Journalled(g.runStates[(work, run)])
  {
  }

  lemma ApplyLives(g: Gateway, call: Call)
    requires Restorable(g)
    ensures LivesLegal(Apply(g, call).0.journal) <==> LivesLegal(g.journal) && !Stranding(g, call)
  {
    if call.Record? {
      RecordLives(g, call.work, call.run, call.to);
    } else {
      OtherCallsLive(g, call);
    }
  }

  /** The row a call writes, if it gets that far. */
  function CallRow(g: Gateway, call: Call): Entry {
    match call
    case Create(work, session, kind, objective) => g.Row(work, WorkCreated(session, kind, objective))
    case Stamp(work, stamp, compiled) => g.Row(work, ProvenanceStamped(stamp, compiled))
    case Bind(work, run) => g.Row(work, RunBound(run))
    case Record(work, run, to) => g.Row(work, RunMoved(run, Journalled(to)))
    case NewBinding(b) => g.Row(b.work, BindingCreated(b.(state := Parked)))
    case Move(id, move, provider) =>
      g.Row(if id in g.bindings then g.bindings[id].work else "",
            if move.Suspend? then BindingSuspended(id) else BindingActivated(id, provider))
  }

  lemma OneRowAtMost(g: Gateway, call: Call)
    ensures Apply(g, call).0.journal == g.journal || Apply(g, call).0.journal == g.journal + [CallRow(g, call)]
  {
    match call
    case Create(_, _, _, _) =>
    case Stamp(_, _, _) =>
    case Bind(_, _) =>
    case Record(_, _, _) =>
    case NewBinding(_) =>
    case Move(_, _, _) =>
  }

  lemma OtherCallsLive(g: Gateway, call: Call)
    requires !call.Record?
    ensures LivesLegal(Apply(g, call).0.journal) <==> LivesLegal(g.journal)
  {
    OneRowAtMost(g, call);
    OtherRowsLive(g.journal, CallRow(g, call));
  }

  predicate StrandedAt(g: Gateway, calls: seq<Call>, i: nat)
    requires i < |calls|
  {
    Stranding(AfterCalls(g, calls[..i]), calls[i])
  }

  ghost predicate NeverStranded(g: Gateway, calls: seq<Call>) {
    forall i :: 0 <= i < |calls| ==> !StrandedAt(g, calls, i)
  }

  lemma NeverStrandedLast(g: Gateway, calls: seq<Call>)
    requires calls != []
    ensures var n := |calls| - 1;
            NeverStranded(g, calls) <==> NeverStranded(g, calls[..n]) && !StrandedAt(g, calls, n)
  {
    var n := |calls| - 1;
    forall i | 0 <= i < n ensures StrandedAt(g, calls[..n], i) <==> StrandedAt(g, calls, i) {
      assert calls[..n][..i] == calls[..i];
    }
  }

  /** One stranding move is never undone: rows stay. */
  lemma {:induction false} LivesAlong(g: Gateway, calls: seq<Call>)
    requires Restorable(g) && NeverPoisoned(g, calls)
    ensures LivesLegal(AfterCalls(g, calls).journal) <==> LivesLegal(g.journal) && NeverStranded(g, calls)
    decreases |calls|
  {
    if calls != [] {
      var n := |calls| - 1;
      NeverPoisonedLast(g, calls);
      NeverStrandedLast(g, calls);
      LivesAlong(g, calls[..n]);
      PoisonedStays(g, calls[..n]);
      ApplyLives(AfterCalls(g, calls[..n]), calls[n]);
    }
  }

  // ---------------------------------------------------------------- when a restart succeeds

  /** The Run was recorded since it was first linked, and started if it is finished. */
  predicate Recorded(g: Gateway, key: (string, string))
    requires key in g.runStates
  {
    var life := Life(g.journal, key.0, key.1);
    life != [] && (g.runStates[key].Terminal() ==> Started(life))
  }

  ghost predicate AllRecorded(g: Gateway) {
    forall key :: key in g.runStates ==> Recorded(g, key)
  }

  /** The Work shows the state of its current Run, up to what a row can tell. */
  predicate ShowsLive(g: Gateway, w: string) {
    w in g.currentRun && (w, g.currentRun[w]) in g.runStates && w in g.presence ==>
      Shown(Some(g.presence[w])) == Some(Journalled(g.runStates[(w, g.currentRun[w])]))
  }

  ghost predicate AllShowLive(g: Gateway) {
    forall w :: ShowsLive(g, w)
  }

  /** What a live gateway must look like, beside the order of its lifecycle rows, for a
      restart to give every Run back. */
  ghost predicate Recoverable(g: Gateway) {
    AllRecorded(g) && RunsApart(g.runStates.Keys) && AllShowLive(g) && ActiveProvided(g.bindings)
  }

  lemma LiveState(g: Gateway, key: (string, string))
    requires Restorable(g) && key in g.runStates && Life(g.journal, key.0, key.1) != []
    ensures RecoveredPhase(Life(g.journal, key.0, key.1)) == Journalled(g.runStates[key])
    ensures key in Replay(g.journal).value.runStates
  {
    LifeLast(g.journal, key.0, key.1);
  }

  lemma RunRecoversExactly(g: Gateway, key: (string, string))
    requires Restorable(g) && key in g.runStates
    ensures RunRecovers(Life(g.journal, key.0, key.1))
            <==> Recorded(g, key) && LegalLife(Life(g.journal, key.0, key.1))
  {
    if Life(g.journal, key.0, key.1) != [] {
      LiveState(g, key);
    }
  }

  lemma NoLifeElsewhere(g: Gateway, work: string, run: string)
    requires Restorable(g) && (work, run) !in g.runStates
    ensures LegalLife(Life(g.journal, work, run))
  {
    LifeLast(g.journal, work, run);
  }

  lemma RunsRecoverExactly(g: Gateway)
    requires Restorable(g)
    ensures RunsRecover(g.journal, Replay(g.journal).value) <==> AllRecorded(g) && LivesLegal(g.journal)
  {
    var p := Replay(g.journal).value;
    if RunsRecover(g.journal, p) {
      forall key | key in g.runStates ensures Recorded(g, key) {
        assert key in p.runs;
        RunRecoversExactly(g, key);
      }
      forall work, run ensures LegalLife(Life(g.journal, work, run)) {
        if (work, run) in p.runs {
          RunRecoversExactly(g, (work, run));
        } else {
          NoLifeElsewhere(g, work, run);
        }
      }
    }
    if AllRecorded(g) && LivesLegal(g.journal) {
      forall key | key in p.runs ensures RunRecovers(Life(g.journal, key.0, key.1)) {
        RunRecoversExactly(g, key);
      }
    }
  }

  lemma ShowsItsRunExactly(g: Gateway, w: string)
    requires Restorable(g) && w in g.currentRun && Life(g.journal, w, g.currentRun[w]) != []
    ensures ShowsItsRun(g.journal, Replay(g.journal).value, w) <==> ShowsLive(g, w)
  {
    LiveState(g, (w, g.currentRun[w]));
    assert Get(Replay(g.journal).value.presence, w) == Shown(Get(g.presence, w));
  }

  lemma AllShowExactly(g: Gateway)
    requires Restorable(g) && AllRecorded(g)
    ensures AllShowTheirRuns(g.journal, Replay(g.journal).value) <==> AllShowLive(g)
  {
    forall w | w in g.currentRun
      ensures ShowsItsRun(g.journal, Replay(g.journal).value, w) <==> ShowsLive(g, w)
    {
      assert Recorded(g, (w, g.currentRun[w]));
      ShowsItsRunExactly(g, w);
    }
    if AllShowLive(g) {
      forall w | w in g.currentRun ensures ShowsItsRun(g.journal, Replay(g.journal).value, w) {
        assert ShowsLive(g, w);
      }
    }
    if AllShowTheirRuns(g.journal, Replay(g.journal).value) {
      forall w ensures ShowsLive(g, w) {
        assert w in g.currentRun ==> ShowsItsRun(g.journal, Replay(g.journal).value, w);
      }
    }
  }

  lemma RecoversLive(g: Gateway)
    requires Restorable(g)
    ensures KernelRecovers(g.journal) <==> LivesLegal(g.journal) && Recoverable(g)
  {
    RestorableOpens(g);
    RunsRecoverExactly(g);
    if AllRecorded(g) {
      AllShowExactly(g);
    }
  }

  // ---------------------------------------------------------------- in terms of the calls

  /** The `i`-th call recorded a state of the Run. */
  predicate RecordsAt(g: Gateway, calls: seq<Call>, i: nat, key: (string, string))
    requires i < |calls|
  {
    && calls[i].Record? && (calls[i].work, calls[i].run) == key
    && AfterCalls(g, calls[..i]).RecordTransition(key.0, key.1, calls[i].to).1
  }

  ghost predicate EverRecorded(g: Gateway, calls: seq<Call>, key: (string, string)) {
    exists i :: 0 <= i < |calls| && RecordsAt(g, calls, i, key)
  }

  /** One of the recorded states was one that is journaled as queued or as started. */
  ghost predicate EverBegun(g: Gateway, calls: seq<Call>, key: (string, string)) {
    exists i :: 0 <= i < |calls| && RecordsAt(g, calls, i, key) && Beginning(calls[i].to)
  }

  predicate Beginning(to: State) {
    to.Created? || to.Planning? || to.Ready? || to.Running? || to.Verifying?
  }

  lemma RecordsBefore(g: Gateway, calls: seq<Call>, key: (string, string))
    requires calls != []
    ensures var n := |calls| - 1; var last := RecordsAt(g, calls, n, key);
            && (EverRecorded(g, calls, key) <==> EverRecorded(g, calls[..n], key) || last)
            && (EverBegun(g, calls, key) <==> EverBegun(g, calls[..n], key) || (last && Beginning(calls[n].to)))
  {
    var n := |calls| - 1;
    forall i | 0 <= i < n
      ensures (RecordsAt(g, calls[..n], i, key) <==> RecordsAt(g, calls, i, key)) && calls[..n][i] == calls[i]
    {
      assert calls[..n][..i] == calls[..i];
    }
    if EverBegun(g, calls[..n], key) {
      var i :| 0 <= i < n && RecordsAt(g, calls[..n], i, key) && Beginning(calls[..n][i].to);
      assert RecordsAt(g, calls, i, key);
    }
    if EverRecorded(g, calls[..n], key) {
      var i :| 0 <= i < n && RecordsAt(g, calls[..n], i, key);
      assert RecordsAt(g, calls, i, key);
    }
  }

  /** The lifecycle rows of a Run are what the calls recorded of it. */
  ghost predicate LifeTold(g: Gateway, calls: seq<Call>, key: (string, string)) {
    var life := Life(AfterCalls(g, calls).journal, key.0, key.1);
    && (life != [] <==> EverRecorded(g, calls, key))
    && (Ready in life || Running in life <==> EverBegun(g, calls, key))
  }

  lemma {:induction false} LifeOfCalls(g: Gateway, calls: seq<Call>, key: (string, string))
    requires Restorable(g) && NeverPoisoned(g, calls) && Life(g.journal, key.0, key.1) == []
    ensures LifeTold(g, calls, key)
    decreases |calls|
  {
    if calls != [] {
      NeverPoisonedLast(g, calls);
      LifeOfCalls(g, calls[..|calls| - 1], key);
      LifeToldNext(g, calls, key);
    }
  }

  lemma LifeToldNext(g: Gateway, calls: seq<Call>, key: (string, string))
    requires Restorable(g) && NeverPoisoned(g, calls) && calls != [] && LifeTold(g, calls[..|calls| - 1], key)
    ensures LifeTold(g, calls, key)
  {
    RecordsBefore(g, calls, key);
    LifeOfLast(g, calls, key);
  }

  lemma LifeOfLast(g: Gateway, calls: seq<Call>, key: (string, string))
    requires Restorable(g) && NeverPoisoned(g, calls) && calls != []
    ensures var n := |calls| - 1;
            Life(AfterCalls(g, calls).journal, key.0, key.1)
            == Life(AfterCalls(g, calls[..n]).journal, key.0, key.1)
               + if RecordsAt(g, calls, n, key) then [Journalled(calls[n].to)] else []
  {
    var n := |calls| - 1;
    NeverPoisonedLast(g, calls);
    PoisonedStays(g, calls[..n]);
    LifeAfterCall(AfterCalls(g, calls[..n]), calls[n], key);
  }

  lemma LifeAfterCall(g: Gateway, call: Call, key: (string, string))
    requires Restorable(g) && !Poisons(g, call)
    ensures var records := call.Record? && (call.work, call.run) == key
                           && g.RecordTransition(call.work, call.run, call.to).1;
            Life(Apply(g, call).0.journal, key.0, key.1)
            == Life(g.journal, key.0, key.1) + if records then [Journalled(call.to)] else []
  {
    OneRowAtMost(g, call);
    LifeAppend(g.journal, CallRow(g, call), key.0, key.1);
    if call.Record? {
      RecordWritesRow(g, call);
    }
  }

  lemma RecordWritesRow(g: Gateway, call: Call)
    requires Restorable(g) && !Poisons(g, call) && call.Record?
    ensures var (h, ok) := g.RecordTransition(call.work, call.run, call.to);
            h.journal == if ok then g.journal + [CallRow(g, call)] else g.journal
  {
  }

  /** Every Run that is linked in the end was recorded at some time, and in a queued or a
      started state if it is finished. */
  ghost predicate RunsTold(g: Gateway, calls: seq<Call>) {
    var states := AfterCalls(g, calls).runStates;
    forall key :: key in states ==>
      EverRecorded(g, calls, key) && (states[key].Terminal() ==> EverBegun(g, calls, key))
  }

  ghost predicate OneWorkPerRun(g: Gateway) {
    forall v, w, run :: (v, run) in g.runStates && (w, run) in g.runStates ==> v == w
  }

  ghost predicate ActiveHaveSessions(g: Gateway) {
    forall id :: id in g.bindings && g.bindings[id].state == Active ==> g.bindings[id].provider != None
  }

  lemma ToldExactly(disk: nat -> bool, link: nat -> Fields, calls: seq<Call>)
    requires NeverPoisoned(EmptyGateway(disk, link), calls)
    ensures var g := EmptyGateway(disk, link); AllRecorded(AfterCalls(g, calls)) <==> RunsTold(g, calls)
  {
    var g := EmptyGateway(disk, link);
    EmptyRestorable(disk, link);
    var h := AfterCalls(g, calls);
    forall key | key in h.runStates
      ensures Recorded(h, key)
              <==> EverRecorded(g, calls, key) && (h.runStates[key].Terminal() ==> EverBegun(g, calls, key))
    {
      LifeOfCalls(g, calls, key);
    }
  }

  /** A gateway begins empty and lives through any calls. The kernel can be rebuilt from what
      it leaves exactly if the journal opens, no call recorded a stranding move, every linked
      Run was recorded by some call, and in a queued or started state if it is finished, no Run
      is shared by two Works, every Work shows the state of its current Run and no active
      binding lacks its provider session. */
  lemma RecoversExactly(disk: nat -> bool, link: nat -> Fields, calls: seq<Call>)
    ensures var g := EmptyGateway(disk, link); var h := AfterCalls(g, calls);
            KernelRecovers(h.journal)
            <==> NeverPoisoned(g, calls) && NeverStranded(g, calls) && RunsTold(g, calls)
                 && OneWorkPerRun(h) && AllShowLive(h) && ActiveHaveSessions(h)
  {
    var g := EmptyGateway(disk, link);
    EmptyRestorable(disk, link);
    Reopens(g, calls);
    if NeverPoisoned(g, calls) {
      LivesAlong(g, calls);
      RecoversLive(AfterCalls(g, calls));
      ToldExactly(disk, link, calls);
      ApartIsOneWork(AfterCalls(g, calls));
    }
  }

  lemma ApartIsOneWork(g: Gateway)
    ensures RunsApart(g.runStates.Keys) <==> OneWorkPerRun(g)
  {
    if OneWorkPerRun(g) {
      forall i, j | i in g.runStates.Keys && j in g.runStates.Keys && i.1 == j.1 ensures i == j {
        assert (i.0, i.1) in g.runStates && (j.0, i.1) in g.runStates;
      }
    }
    if RunsApart(g.runStates.Keys) {
      forall v, w, run | (v, run) in g.runStates && (w, run) in g.runStates ensures v == w {
        assert (v, run) in g.runStates.Keys && (w, run) in g.runStates.Keys;
      }
    }
  }

  /** Every Run then comes back in its old state, except that `Verifying` comes back as
      `Running`. */
  lemma RestartPhases(g: Gateway)
    requires Restorable(g) && KernelRecovers(g.journal)
    ensures forall key :: key in g.runStates ==>
              var life := Life(g.journal, key.0, key.1);
              life != [] && RecoveredPhase(life) == if g.runStates[key].Verifying? then Running else g.runStates[key]
  {
    forall key | key in g.runStates
      ensures var life := Life(g.journal, key.0, key.1);
              life != [] && RecoveredPhase(life) == if g.runStates[key].Verifying? then Running else g.runStates[key]
    {
      assert key in Replay(g.journal).value.runs;
      LiveState(g, key);
    }
  }

  // ---------------------------------------------------------------- the crash window

  /** The window: linked but not recorded. Whatever the gateway was, a process that stops
      between the two calls leaves a journal the kernel refuses; one more recorded move to
      any state but a final one closes the window again. */
  lemma CrashWindow(g: Gateway, work: string, run: string)
    requires Restorable(g) && g.BindExecution(work, run).1 && (work, run) !in g.runStates
    ensures var h := g.BindExecution(work, run).0;
            && Restorable(h) && !KernelRecovers(h.journal)
            && forall to :: h.RecordTransition(work, run, to).1 && !to.Terminal() ==>
                 ClosesWindow(g, h.RecordTransition(work, run, to).0, run)
  {
    var h := g.BindExecution(work, run).0;
    BindRestorable(g, work, run);
    WindowOpens(g, h, work, run);
    forall to | h.RecordTransition(work, run, to).1 && !to.Terminal()
      ensures ClosesWindow(g, h.RecordTransition(work, run, to).0, run)
    {
      WindowCloses(g, h, work, run, to);
    }
  }

  /** What was recoverable before is so again, unless the Run belongs to another Work too. */
  ghost predicate ClosesWindow(g: Gateway, l: Gateway, run: string) {
    Restorable(l)
    && (KernelRecovers(g.journal) && (forall key :: key in g.runStates ==> key.1 != run) ==> KernelRecovers(l.journal))
  }

  lemma WindowOpens(g: Gateway, h: Gateway, work: string, run: string)
    requires Restorable(g) && Restorable(h) && (h, true) == g.BindExecution(work, run) && (work, run) !in g.runStates
    ensures h.journal == g.journal + [g.Row(work, RunBound(run))] && Life(h.journal, work, run) == []
    ensures !KernelRecovers(h.journal)
  {
    LifeAppend(g.journal, g.Row(work, RunBound(run)), work, run);
    LifeLast(g.journal, work, run);
    assert (work, run) in h.runStates && !Recorded(h, (work, run));
    RecoversLive(h);
  }

  lemma WindowCloses(g: Gateway, h: Gateway, work: string, run: string, to: State)
    requires Restorable(g) && Restorable(h) && (h, true) == g.BindExecution(work, run) && (work, run) !in g.runStates
    requires h.RecordTransition(work, run, to).1 && !to.Terminal()
    ensures ClosesWindow(g, h.RecordTransition(work, run, to).0, run)
  {
    var l := h.RecordTransition(work, run, to).0;
    WindowOpens(g, h, work, run);
    RecordedRestorable(h, l, work, run, to);
    RecordedRow(h, work, run, to);
    if KernelRecovers(g.journal) && forall key :: key in g.runStates ==> key.1 != run {
      RecoversLive(g);
      LivesLinked(g, h, l, work, run, to);
      WindowStates(g, h, l, work, run, to);
      WindowShown(g, l, work, run, to);
      AllStillRecorded(g, h, l, work, run, to);
      RecoversLive(l);
    }
  }

  lemma WindowStates(g: Gateway, h: Gateway, l: Gateway, work: string, run: string, to: State)
    requires (h, true) == g.BindExecution(work, run) && (l, true) == h.RecordTransition(work, run, to)
    requires (work, run) !in g.runStates
    ensures l.runStates == g.runStates[(work, run) := to] && l.presence == g.presence[work := to]
    ensures l.currentRun == g.currentRun[work := run] && l.bindings == g.bindings && GatewayMay(Ready, to)
  {
    assert h.runStates == g.runStates[(work, run) := Ready] && h.presence == g.presence;
    assert h.currentRun == g.currentRun[work := run] && h.bindings == g.bindings;
    assert l.runStates == g.runStates[(work, run) := to];
  }

  lemma WindowShown(g: Gateway, l: Gateway, work: string, run: string, to: State)
    requires l.runStates == g.runStates[(work, run) := to] && l.presence == g.presence[work := to]
    requires l.currentRun == g.currentRun[work := run] && l.bindings == g.bindings && GatewayMay(Ready, to)
    requires forall key :: key in g.runStates ==> key.1 != run
    requires RunsApart(g.runStates.Keys) && AllShowLive(g) && ActiveProvided(g.bindings)
    ensures RunsApart(l.runStates.Keys) && AllShowLive(l) && ActiveProvided(l.bindings)
  {
    forall w ensures ShowsLive(l, w) {
      assert ShowsLive(g, w);
    }
  }

  lemma LivesLinked(g: Gateway, h: Gateway, l: Gateway, work: string, run: string, to: State)
    requires h.journal == g.journal + [g.Row(work, RunBound(run))] && Life(h.journal, work, run) == []
    requires l.journal == h.journal + [h.Row(work, RunMoved(run, Journalled(to)))] && LivesLegal(g.journal)
    ensures LivesLegal(l.journal)
  {
    OtherRowsLive(g.journal, g.Row(work, RunBound(run)));
    LifecycleRowLives(h.journal, h.Row(work, RunMoved(run, Journalled(to))));
    LegalLifeAppend([], Journalled(to));
    assert [] + [Journalled(to)] == [Journalled(to)];
  }

  lemma AllStillRecorded(g: Gateway, h: Gateway, l: Gateway, work: string, run: string, to: State)
    requires h.journal == g.journal + [g.Row(work, RunBound(run))] && Life(h.journal, work, run) == []
    requires l.journal == h.journal + [h.Row(work, RunMoved(run, Journalled(to)))] && AllRecorded(g)
    requires l.runStates == g.runStates[(work, run) := to] && !to.Terminal()
    ensures AllRecorded(l)
  {
    forall key | key in l.runStates ensures Recorded(l, key) {
      LifeAppend(g.journal, g.Row(work, RunBound(run)), key.0, key.1);
      LifeAppend(h.journal, h.Row(work, RunMoved(run, Journalled(to))), key.0, key.1);
      assert key != (work, run) ==> Recorded(g, key);
    }
  }
}
