/** The dead ends of the spine are reached by ordinary calls on fresh owners whose disk never
    fails. */
module SpineWitness {
  import opened Basics
  import opened Lifecycle
  import opened SessionVaultModel
  import opened WorkGatewayModel
  import opened ExecutionKernelModel
  import opened AcpAdmission
  import opened AcpTurn
  import opened AcpCompose
  import opened AcpTransition
  import opened AcpPrepare
  import opened Dispatch
  import opened SpineRuns

  function Around(o: Owners): Spine {
    Spine(Vault(map[], 0, _ => true), o.g, o.k)
  }

  /** Fresh owners; no write of theirs fails. */
  ghost predicate Fresh(o: Owners) {
    o == Owners(EmptyGateway(o.g.disk, o.g.link), Kernel(map[], 0)) && forall n :: o.g.disk(n)
  }

  /** After a successful turn on fresh owners: everything the later steps need to know. */
  ghost predicate FirstDone(b: Owners, c: Caller, p: TurnIdentity) {
    && Inv(Around(b)) && Identified(b, c, p) && PromptRuns(b, c.session, p.run) && p.owner.binding != ""
    && Alone(b.g.bindings, c.session, c.agent) && forall n :: b.g.disk(n)
  }

  /** A first turn on fresh owners runs. */
  lemma FirstTurn(a: Owners, b: Owners, c: Caller, pick: string, r: Result<TurnIdentity, TurnError>)
    requires Fresh(a) && c.session != "" && c.agent != "" && c.provider != "" && TurnStep(a, b, c, pick, r)
    ensures r.Success? && FirstDone(b, c, r.value)
  {
    assert |pick| >= 12;
    assert Admissible(a.g, a.k, c.session, c.agent, c.provider, pick);
    assert NoWriteFailed(a.g, b.g);
    InvInitially(Around(a).v.disk, a.g.disk, a.g.link);
    assert Agree(a.g, a.k, c.session);
    TurnKeepsInv(Around(a), c, pick, r, Around(b));
    TurnKeepsAlone(a, b, c, pick, c.session, c.agent);
  }

  lemma HandoffKeepsInv(o: Owners, work: string, run: string, to: State)
    requires Inv(Around(o))
    ensures Inv(Around(Handoff(o, work, run, to).0)) && Handoff(o, work, run, to).0.g.disk == o.g.disk
  {
    RecordKeepsInv(o.g, o.k, work, run, to);
    PhaseKeepsInv(o.g.RecordTransition(work, run, to).0, o.k, run, PhaseForWorkState(to));
  }

  lemma TrimmedLetters()
    ensures Trim("s") == "s" && Trim("a") == "a" && Trim("p") == "p"
  {
  }

  /** The turn is ended as completed. */
  lemma FirstEnded(b: Owners, d: Owners, c: Caller, p: TurnIdentity, ok: bool)
    requires FirstDone(b, c, p) && (d, ok) == Ended(b, c.session, p.run, Stopped(false, false))
    ensures Inv(Around(d)) && NoWriteFailed(b.g, d.g)
  {
    HandoffKeepsInv(b, c.session, p.run, Verifying);
    var (t, verified) := Handoff(b, c.session, p.run, Verifying);
    if verified {
      HandoffKeepsInv(t, c.session, p.run, Completed);
    }
  }

  lemma ClosedTurn(d: Owners, e: Owners, c: Caller, pick: string, r: Result<TurnIdentity, TurnError>)
    requires Finished(d.g, c.session) && Agree(d.g, d.k, c.session) && TurnStep(d, e, c, pick, r)
    ensures r.Failure?
  {
    assert !RunUsable(d.g, d.k, c.session);
  }

  /** The Run of the first turn became recoverable and an effect of its Work uncertain. */
  lemma BecameContested(b: Owners, d: Owners, c: Caller, p: TurnIdentity)
    requires FirstDone(b, c, p)
    requires var t := Handoff(b, c.session, p.run, Recoverable).0; d == t.(g := t.g.(uncertain := {c.session}))
    ensures Inv(Around(d)) && Agree(d.g, d.k, c.session) && Contested(d.g, d.k, c.session) && d.g.disk == b.g.disk
    ensures d.g.bindings == b.g.bindings && d.g.works == b.g.works && d.g.currentRun == b.g.currentRun
    ensures p.run in d.k.runs && d.k.runs[p.run] == b.k.runs[p.run].(phase := Recoverable)
  {
    HandoffKeepsInv(b, c.session, p.run, Recoverable);
    var t := Handoff(b, c.session, p.run, Recoverable).0;
    GatesKeepInv(Around(t), Around(d));
    MadeRecoverable(b, t, c.session, p.run);
  }

  lemma MadeRecoverable(b: Owners, t: Owners, work: string, run: string)
    requires PromptRuns(b, work, run) && b.g.disk(b.g.writes) && t == Handoff(b, work, run, Recoverable).0
    ensures t.g.runStates == b.g.runStates[(work, run) := Recoverable]
            && t.g.presence == b.g.presence[work := Recoverable]
    ensures t.g.bindings == b.g.bindings && t.g.works == b.g.works && t.g.currentRun == b.g.currentRun
    ensures t.k == b.k.(runs := b.k.runs[run := b.k.runs[run].(phase := Recoverable)])
  {
  }

  lemma ContestedTurn(b: Owners, d: Owners, e: Owners, c: Caller, p: TurnIdentity, pick: string,
                      r: Result<TurnIdentity, TurnError>)
    requires FirstDone(b, c, p) && c.session != "" && c.agent != "" && c.provider != ""
    requires d.g.bindings == b.g.bindings && d.g.works == b.g.works && d.g.currentRun == b.g.currentRun
    requires p.run in d.k.runs && d.k.runs[p.run] == b.k.runs[p.run].(phase := Recoverable)
    requires Agree(d.g, d.k, c.session) && Contested(d.g, d.k, c.session) && d.g.disk == b.g.disk
    requires TurnStep(d, e, c, pick, r)
    ensures r.Failure? && !Agree(e.g, e.k, c.session)
  {
    assert pick == p.owner.binding;
    assert FrontDoor(d.g, d.k, c.session, c.agent, c.provider, pick);
    assert NoWriteFailed(d.g, e.g) && !RunUsable(d.g, d.k, c.session);
  }

  /** A second turn of the same Session, agent and provider session shares the running Run. */
  lemma SharedTurn(b: Owners, d: Owners, c: Caller, p: TurnIdentity, pick: string, r: Result<TurnIdentity, TurnError>)
    requires FirstDone(b, c, p) && c.session != "" && c.agent != "" && c.provider != ""
    requires TurnStep(b, d, c, pick, r)
    ensures r.Success? && r.value.run == p.run && PromptRuns(d, c.session, p.run) && d.g.disk == b.g.disk
  {
    assert pick == p.owner.binding;
    assert Admissible(b.g, b.k, c.session, c.agent, c.provider, pick);
    assert NoWriteFailed(b.g, d.g) && !Contested(b.g, b.k, c.session);
  }

  /** From Verifying the gateway records a cancellation that the kernel refuses; the completion
      that was to follow Verifying is then refused too. */
  lemma Parted(o: Owners, t: Owners, work: string, run: string)
    requires PromptRuns(o, work, run) && t == Handoff(o, work, run, Verifying).0 && forall n :: o.g.disk(n)
    ensures var (u, moved) := Handoff(t, work, run, Cancelled);
            !moved && !Agree(u.g, u.k, work) && Handoff(u, work, run, Completed) == (u, false)
  {
    FromRunning(o, work, run, Verifying);
    HandoffAgreement(t, work, run, Cancelled);
    var (g, recorded) := t.g.RecordTransition(work, run, Cancelled);
    assert recorded && g.runStates[(work, run)] == Cancelled;
  }

  /** One turn on fresh owners; its prompt is running. */
  method RunningTurn()
    returns (gateway: WorkGateway, kernel: ExecutionKernel, first: Result<TurnIdentity, TurnError>)
    ensures fresh(gateway) && fresh(kernel) && first.Success?
    ensures FirstDone(Owners(gateway.Now(), kernel.Now()), Caller("s", "a", "p"), first.value)
  {
    TrimmedLetters();
    gateway := new WorkGateway(_ => true, _ => []);
    kernel := new ExecutionKernel();
    ghost var a := Owners(gateway.Now(), kernel.Now());
    ghost var pick;
    first, pick := PrepareAcpTurn(gateway, kernel, "s", "a", "p", "objective");
    FirstTurn(a, Owners(gateway.Now(), kernel.Now()), Caller("s", "a", "p"), pick, first);
  }

  /** A Session whose first turn completed cannot have a second one. */
  method SecondTurnFails()
    returns (first: Result<TurnIdentity, TurnError>, ended: bool, second: Result<TurnIdentity, TurnError>)
    ensures first.Success? && ended && second.Failure?
  {
    TrimmedLetters();
    var gateway, kernel;
    gateway, kernel, first := RunningTurn();
    ghost var b := Owners(gateway.Now(), kernel.Now());
    ghost var c := Caller("s", "a", "p");
    ended := EndTurn(gateway, kernel, first.value, Stopped(false, false));
    ghost var d := Owners(gateway.Now(), kernel.Now());
    FirstEnded(b, d, c, first.value, ended);
    ghost var pick;
    second, pick := PrepareAcpTurn(gateway, kernel, "s", "a", "p", "objective");
    ClosedTurn(d, Owners(gateway.Now(), kernel.Now()), c, pick, second);
  }

  /** A Run that became recoverable while an effect of its Work is uncertain: the next turn is
      refused, and leaves the two owners of the Run's state apart. */
  method ContestedResumption()
    returns (gateway: WorkGateway, kernel: ExecutionKernel, second: Result<TurnIdentity, TurnError>)
    ensures second.Failure? && !Agree(gateway.Now(), kernel.Now(), "s")
  {
    TrimmedLetters();
    var first;
    gateway, kernel, first := RunningTurn();
    ghost var b := Owners(gateway.Now(), kernel.Now());
    ghost var c := Caller("s", "a", "p");
    var _ := TransitionAcpRun(gateway, kernel, "s", first.value.run, Recoverable);
    gateway.uncertain := {"s"};
    ghost var d := Owners(gateway.Now(), kernel.Now());
    BecameContested(b, d, c, first.value);
    ghost var pick;
    second, pick := PrepareAcpTurn(gateway, kernel, "s", "a", "p", "objective");
    ContestedTurn(b, d, Owners(gateway.Now(), kernel.Now()), c, first.value, pick, second);
  }

  /** Two prompts of one Session, agent and provider session share a Run. The first stops, and
      before its completion is recorded the second comes back cancelled: the gateway says
      cancelled, the kernel stays at verifying, and neither prompt's end succeeds. */
  method DifferingMove()
    returns (gateway: WorkGateway, kernel: ExecutionKernel, verified: bool, cancelled: bool, completed: bool)
    ensures verified && !cancelled && !completed && !Agree(gateway.Now(), kernel.Now(), "s")
  {
    TrimmedLetters();
    var first;
    gateway, kernel, first := RunningTurn();
    ghost var b := Owners(gateway.Now(), kernel.Now());
    ghost var pick;
    var second;
    second, pick := PrepareAcpTurn(gateway, kernel, "s", "a", "p", "objective");
    ghost var d := Owners(gateway.Now(), kernel.Now());
    SharedTurn(b, d, Caller("s", "a", "p"), first.value, pick, second);
    FromRunning(d, "s", first.value.run, Verifying);
    verified := TransitionAcpRun(gateway, kernel, "s", first.value.run, Verifying);
    Parted(d, Owners(gateway.Now(), kernel.Now()), "s", first.value.run);
    cancelled := EndTurn(gateway, kernel, second.value, PromptCancelled);
    completed := TransitionAcpRun(gateway, kernel, "s", first.value.run, Completed);
  }
}
