/** When the gateway's state of every Work equals the Work state of its current Run's phase
    in the kernel, and how a failed turn is retried. */
module SpineAgreement {
  import opened Basics
  import opened Lifecycle
  import opened SessionVaultModel
  import opened WorkGatewayModel
  import opened ExecutionKernelModel
  import opened AcpAdmission
  import opened AcpBinding
  import opened AcpTurn
  import opened AcpCompose
  import opened AcpTransition
  import opened Dispatch
  import opened Convergence
  import opened SpineRuns

  ghost predicate AllAgree(s: Spine) {
    forall w :: Agree(s.g, s.k, w)
  }

  /** The calls after which the owners still agree. Each condition can be checked before
      the call, except that a dispatch must go through. */
  ghost predicate Clean(a: Spine, act: SpineAct) {
    match act
    case Turn(c, pick, _) =>
      !(FrontDoor(a.g, a.k, c.session, c.agent, c.provider, pick) && Contested(a.g, a.k, c.session))
    case RunTransition(work, run, to) =>
      Get(a.g.currentRun, work) == Some(run) && run in a.k.runs && a.g.MayMove(work, run, to) ==>
        !Parts(a.k.runs[run].phase, to) && !KernelHolds(a.k, run, to)
    case Dispatching(occ, steps) => occ.Compiles() && Attempt(a, occ, STEPS).1 && steps == STEPS
    case BindingRegistered(_) => true
    case BindingMoved(_, _, _) => true
    case GatesChanged => true
  }

  /** A Work whose own records and whose current Run's phase did not change. */
  lemma AgreeSame(a: Gateway, k: Kernel, b: Gateway, l: Kernel, w: string)
    requires Get(b.currentRun, w) == Get(a.currentRun, w) && Get(b.presence, w) == Get(a.presence, w)
    requires w in a.currentRun ==> Get(b.runStates, (w, a.currentRun[w])) == Get(a.runStates, (w, a.currentRun[w]))
    requires w in a.currentRun && a.currentRun[w] in k.runs ==>
               a.currentRun[w] in l.runs && l.runs[a.currentRun[w]].phase == k.runs[a.currentRun[w]].phase
    requires w in a.currentRun && a.currentRun[w] !in k.runs ==> a.currentRun[w] !in l.runs
    ensures Agree(a, k, w) <==> Agree(b, l, w)
  {
  }

  /** A turn decides the agreement of its own Session and of no other Work. */
  lemma TurnAgrees(a: Spine, c: Caller, pick: string, r: Result<TurnIdentity, TurnError>, b: Spine)
    requires Inv(a) && AllAgree(a) && SpineNext(a, Turn(c, pick, r), b) && NoWriteFailed(a.g, b.g)
    ensures AllAgree(b) <==> Clean(a, Turn(c, pick, r))
  {
    assert Agree(a.g, a.k, c.session);
    assert AllAgree(b) ==> Agree(b.g, b.k, c.session);
    forall w | w != c.session ensures Agree(b.g, b.k, w) {
      OtherWorkSame(a.g, b.g, c.session, w);
      assert Agree(a.g, a.k, w);
      AgreeSame(a.g, a.k, b.g, b.k, w);
    }
  }

  lemma TransitionAgrees(a: Spine, work: string, run: string, to: State, b: Spine)
    requires Inv(a) && AllAgree(a) && SpineNext(a, RunTransition(work, run, to), b) && NoWriteFailed(a.g, b.g)
    ensures AllAgree(b) <==> Clean(a, RunTransition(work, run, to))
  {
    assert Agree(a.g, a.k, work);
    if Get(a.g.currentRun, work) == Some(run) {
      HandoffAgreement(Both(a), work, run, to);
      assert AllAgree(b) ==> Agree(b.g, b.k, work);
      forall w | w != work ensures Agree(b.g, b.k, w) {
        assert Agree(a.g, a.k, w);
        OthersAfterHandoff(Both(a), work, run, to, w);
      }
    } else {
      assert b == a;
    }
  }

  lemma OthersAfterHandoff(o: Owners, work: string, run: string, to: State, w: string)
    requires RunsPlaced(o.g.works, o.g.currentRun) && Get(o.g.currentRun, work) == Some(run) && w != work
             && Agree(o.g, o.k, w)
    ensures var t := Handoff(o, work, run, to).0; Agree(t.g, t.k, w)
  {
    var t := Handoff(o, work, run, to).0;
    AgreeSame(o.g, o.k, t.g, t.k, w);
  }

  // ---------------------------------------------------------------- dispatch

  /** The Work is new to the gateway, or bound to its own Run already. */
  lemma DispatchOwnAgrees(a: Spine, occ: Occurrence)
    requires Inv(a) && AllAgree(a) && occ.Compiles() && Attempt(a, occ, STEPS).1
    ensures var b := Attempt(a, occ, STEPS).0; Agree(b.g, b.k, occ.WorkId())
  {
    Unroll(a, occ);
    var work := occ.WorkId();
    var g1 := AdmitWork(a.g, occ).0;
    var g2 := AdmitProvenance(g1, occ).0;
    var k := AdmitRun(a.k, occ).0;
    assert Agree(a.g, a.k, work) && Unstarted(a.g, work);
    WorkAdmitted(a.g, occ);
    ProvenanceAdmitted(g1, occ);
    LinkAdmitted(g2, occ);
    RecordedAgrees(AdmitLink(g2, occ).0, k, occ, work in a.g.currentRun);
  }

  lemma WorkAdmitted(g: Gateway, occ: Occurrence)
    requires occ.Compiles() && AdmitWork(g, occ).1
    ensures var h := AdmitWork(g, occ).0;
            && h.currentRun == g.currentRun && h.runStates == g.runStates
            && (occ.WorkId() in g.works ==> h.presence == g.presence)
            && (occ.WorkId() !in g.works ==> Get(h.presence, occ.WorkId()) == Some(Created))
  {
  }

  lemma ProvenanceAdmitted(g: Gateway, occ: Occurrence)
    requires occ.Compiles()
    ensures var h := AdmitProvenance(g, occ).0;
            h.currentRun == g.currentRun && h.runStates == g.runStates && h.presence == g.presence
  {
    if !HasProvenance(g, occ) {
      StampLeavesRuns(g, occ.WorkId(), occ.Stamp(), occ.compiled.value.text);
    }
  }

  lemma StampLeavesRuns(g: Gateway, work: string, stamp: Provenance, compiled: string)
    ensures var h := g.StampProvenance(work, stamp, compiled).0;
            h.currentRun == g.currentRun && h.runStates == g.runStates && h.presence == g.presence
  {
  }

  lemma LinkAdmitted(g: Gateway, occ: Occurrence)
    requires AdmitLink(g, occ).1
    ensures var h := AdmitLink(g, occ).0;
            h.presence == g.presence && Get(h.currentRun, occ.WorkId()) == Some(occ.RunId())
            && (occ.WorkId() in g.currentRun ==> h == g)
  {
  }

  lemma RecordedAgrees(g: Gateway, k: Kernel, occ: Occurrence, bound: bool)
    requires Get(g.currentRun, occ.WorkId()) == Some(occ.RunId()) && occ.RunId() in k.runs
    requires if bound then Agree(g, k, occ.WorkId())
             else Get(g.presence, occ.WorkId()) == None || Get(g.presence, occ.WorkId()) == Some(Created)
    requires AdmitState(g, occ, k.runs[occ.RunId()].phase).1
    ensures Agree(AdmitState(g, occ, k.runs[occ.RunId()].phase).0, k, occ.WorkId())
  {
  }

  lemma StepOthersAgree(s: Spine, occ: Occurrence, n: nat, w: string)
    requires occ.Compiles() && w != occ.WorkId() && Agree(s.g, s.k, w)
    ensures var t := Step(s, occ, n).0; Agree(t.g, t.k, w)
  {
    StepAdds(s, occ, n);
    StepLeavesOthers(s, occ, n, w, if w in s.g.currentRun then s.g.currentRun[w] else "");
    UntouchedAgrees(s, Step(s, occ, n).0, w);
  }

  lemma UntouchedAgrees(s: Spine, t: Spine, w: string)
    requires WorkUntouched(s.g, t.g, w, if w in s.g.currentRun then s.g.currentRun[w] else "")
    requires Grows(s, t) && Agree(s.g, s.k, w)
    ensures Agree(t.g, t.k, w)
  {
  }

  lemma StepLeavesOthers(s: Spine, occ: Occurrence, n: nat, w: string, run: string)
    requires occ.Compiles() && w != occ.WorkId()
    ensures WorkUntouched(s.g, Step(s, occ, n).0.g, w, run)
  {
    match n
    case 0 =>
    case 1 => CreateApart(s.g, occ.WorkId(), occ.SessionId(), occ.compiled.value.objective, w, run);
    case 2 => StampApart(s.g, occ.WorkId(), occ.Stamp(), occ.compiled.value.text, w, run);
    case 3 =>
    case 4 => BindApart(s.g, occ.WorkId(), occ.RunId(), w, run);
    case _ =>
      if occ.RunId() in s.k.runs {
        RecordApart(s.g, occ.WorkId(), occ.RunId(), WorkStateForPhase(s.k.runs[occ.RunId()].phase), w, run);
      }
  }

  predicate AgreesOn(s: Spine, w: string) {
    Agree(s.g, s.k, w)
  }

  lemma {:induction false} AttemptOthersAgree(s: Spine, occ: Occurrence, n: nat, w: string)
    requires occ.Compiles() && w != occ.WorkId() && AgreesOn(s, w)
    ensures AgreesOn(Attempt(s, occ, n).0, w)
  {
    if n > 0 {
      AttemptOthersAgree(s, occ, n - 1, w);
      OnwardOthersAgree(Attempt(s, occ, n - 1), occ, n - 1, w);
    }
  }

  lemma OnwardOthersAgree(r: (Spine, bool), occ: Occurrence, n: nat, w: string)
    requires occ.Compiles() && w != occ.WorkId() && AgreesOn(r.0, w)
    ensures AgreesOn(Onward(r, occ, n).0, w)
  {
    if r.1 {
      StepOthersAgree(r.0, occ, n, w);
    }
  }

  lemma DispatchAgrees(a: Spine, occ: Occurrence)
    requires Inv(a) && AllAgree(a) && occ.Compiles() && Attempt(a, occ, STEPS).1
    ensures AllAgree(Attempt(a, occ, STEPS).0)
  {
    var b := Attempt(a, occ, STEPS).0;
    forall w ensures Agree(b.g, b.k, w) {
      assert Agree(a.g, a.k, w);
      if w == occ.WorkId() {
        DispatchOwnAgrees(a, occ);
      } else {
        AttemptOthersAgree(a, occ, STEPS, w);
      }
    }
  }

  // ---------------------------------------------------------------- along a run

  lemma CleanAgrees(a: Spine, act: SpineAct, b: Spine)
    requires Inv(a) && AllAgree(a) && SpineNext(a, act, b) && NoWriteFailed(a.g, b.g) && Clean(a, act)
    ensures AllAgree(b)
  {
    match act
    case Turn(c, pick, r) => TurnAgrees(a, c, pick, r, b);
    case RunTransition(work, run, to) => TransitionAgrees(a, work, run, to, b);
    case Dispatching(occ, steps) => DispatchAgrees(a, occ);
    case _ =>
      QuietActs(a, act, b);
      ProjectionsAgree(a, b);
  }

  /** Bindings and gates say nothing about states. */
  lemma QuietActs(a: Spine, act: SpineAct, b: Spine)
    requires SpineNext(a, act, b) && (act.BindingRegistered? || act.BindingMoved? || act.GatesChanged?)
    ensures b.g.currentRun == a.g.currentRun && b.g.runStates == a.g.runStates && b.g.presence == a.g.presence
    ensures b.k.runs.Keys == a.k.runs.Keys
    ensures forall run :: run in a.k.runs ==> b.k.runs[run].phase == a.k.runs[run].phase
  {
  }

  lemma ProjectionsAgree(a: Spine, b: Spine)
    requires AllAgree(a)
    requires b.g.currentRun == a.g.currentRun && b.g.runStates == a.g.runStates && b.g.presence == a.g.presence
    requires b.k.runs.Keys == a.k.runs.Keys && forall run ::
             run in a.k.runs ==> b.k.runs[run].phase == a.k.runs[run].phase
    ensures AllAgree(b)
  {
    forall w ensures Agree(b.g, b.k, w) {
      assert Agree(a.g, a.k, w);
    }
  }

  /** Two-owner agreement along any run in which no write fails, no dispatch is cut short
      and no call is one of those that part the owners. */
  lemma {:induction false} AgreementAlong(states: seq<Spine>, acts: seq<SpineAct>, n: nat)
    requires SpineTrace(states, acts) && AllAgree(states[0]) && n <= |acts|
    requires forall i :: 0 <= i < n ==> NoWriteFailed(states[i].g, states[i + 1].g)
    requires forall i :: 0 <= i < n ==> Clean(states[i], acts[i])
    ensures AllAgree(states[n])
  {
    if n > 0 {
      AgreementAlong(states, acts, n - 1);
      Along(states, acts, 0, n - 1);
      assert SpineNext(states[n - 1], acts[n - 1], states[n - 1 + 1]);
      CleanAgrees(states[n - 1], acts[n - 1], states[n]);
    }
  }

  // ---------------------------------------------------------------- approval

  /** Only the approval gates changed, and nothing waits for an approval of this Run. */
  ghost predicate Approved(t: Owners, u: Owners, work: string, run: string) {
    && u.g == t.g.(approvals := u.g.approvals, uncertain := u.g.uncertain) && (work, run) !in u.g.approvals
    && u.k == t.k.(runs := u.k.runs) && SamePhases(t.k.runs, u.k.runs)
    && run in u.k.runs && !u.k.runs[run].pendingApproval
  }

  lemma LeftWaiting(o: Owners, t: Owners, work: string, run: string)
    requires PromptRuns(o, work, run) && (t, true) == Ended(o, work, run, Stopped(false, true))
    ensures t.g == o.g.(runStates := o.g.runStates[(work, run) := WaitingApproval], presence := t.g.presence,
                        journal := t.g.journal, writes := t.g.writes)
    ensures t.k == o.k.(runs := o.k.runs[run := o.k.runs[run].(phase := WaitingApproval)])
  {
  }

  /** The Run that waits, its approval decided, is one that the same caller's turn may continue. */
  lemma ApprovedAdmits(o: Owners, u: Owners, c: Caller, p: TurnIdentity)
    requires Identified(o, c, p) && c.session != "" && c.agent != "" && c.provider != "" && p.owner.binding != ""
    requires u.g.works == o.g.works && u.g.bindings == o.g.bindings && u.g.currentRun == o.g.currentRun
    requires Get(u.g.runStates, (c.session, p.run)) == Some(WaitingApproval) && (c.session, p.run) !in u.g.approvals
    requires p.run in u.k.runs
    requires u.k.runs[p.run] == o.k.runs[p.run].(phase := WaitingApproval, pendingApproval := false)
    ensures Admissible(u.g, u.k, c.session, c.agent, c.provider, p.owner.binding)
  {
  }

  /** A turn whose prompt stopped with tickets pending is not the end: once they are decided, the
      next turn that finds the same binding answers with the very same identity. */
  lemma ApprovedTurnContinues(a: Owners, o: Owners, t: Owners, u: Owners, v: Owners, c: Caller, pick: string,
                              p: TurnIdentity, r: Result<TurnIdentity, TurnError>)
    requires TurnStep(a, o, c, pick, Success(p)) && Agree(o.g, o.k, c.session)
    requires (t, true) == Ended(o, c.session, p.run, Stopped(false, true)) && Approved(t, u, c.session, p.run)
    requires TurnStep(u, v, c, pick, r) && NoWriteFailed(u.g, v.g)
    ensures r == Success(p) && !Finished(t.g, c.session)
  {
    FoundBinding(a, c, pick);
    LeftWaiting(o, t, c.session, p.run);
    ApprovedAdmits(o, u, c, p);
  }

  lemma FoundBinding(a: Owners, c: Caller, pick: string)
    requires Admissible(a.g, a.k, c.session, c.agent, c.provider, pick)
    requires Choice(a.g.bindings, c.session, c.agent, pick)
    ensures c.session != "" && c.agent != "" && c.provider != "" && pick != ""
  {
    assert !Matches(a.g, pick, c.session, c.agent) ==> |pick| >= 12;
  }

  // ---------------------------------------------------------------- retry

  /** The binding a turn found is still one it can find afterwards. */
  lemma ChoiceStays(a: Owners, b: Owners, c: Caller, pick: string)
    requires TurnFrame(a, b, c, pick)
    ensures Choice(b.g.bindings, c.session, c.agent, pick)
  {
    var bs, cs := a.g.bindings, b.g.bindings;
    assert pick in bs ==> pick in cs && SameOwner(bs[pick], cs[pick]);
    if !ForAgent(cs, pick, c.session, c.agent) {
      forall id ensures !ForAgent(cs, id, c.session, c.agent) {
        assert !ForAgent(bs, id, c.session, c.agent);
        assert id != pick && id in cs ==> id in cs - {pick} && cs[id] == (bs - {pick})[id];
      }
    }
  }

  lemma OnlyChoice(bindings: map<string, AgentBinding>, session: string, agent: string, p: string, q: string)
    requires Alone(bindings, session, agent) && Choice(bindings, session, agent, p)
    requires Choice(bindings, session, agent, q)
    ensures p == q
  {
  }

  ghost predicate FailedTurn(a: Owners, b: Owners, c: Caller) {
    exists pick, e: TurnError :: TurnStep(a, b, c, pick, Failure(e))
  }

  /** The agent's one binding, or its canonical id, is `pick`, and a turn is admitted with it. */
  ghost predicate Retryable(o: Owners, c: Caller, pick: string) {
    && Alone(o.g.bindings, c.session, c.agent) && Choice(o.g.bindings, c.session, c.agent, pick)
    && Admissible(o.g, o.k, c.session, c.agent, c.provider, pick)
  }

  lemma FailureKeepsRetryable(a: Owners, b: Owners, c: Caller, pick: string)
    requires FailedTurn(a, b, c) && Retryable(a, c, pick)
    ensures Retryable(b, c, pick)
  {
    var found, e: TurnError :| TurnStep(a, b, c, found, Failure(e));
    OnlyChoice(a.g.bindings, c.session, c.agent, found, pick);
    ChoiceStays(a, b, c, pick);
    TurnKeepsAlone(a, b, c, pick, c.session, c.agent);
  }

  /** A run of failed turns of one caller. */
  ghost predicate FailedTurns(states: seq<Owners>, c: Caller) {
    |states| > 0 && forall i :: 0 <= i < |states| - 1 ==> FailedTurn(states[i], states[i + 1], c)
  }

  lemma {:induction false} RetryableAfterFailures(states: seq<Owners>, c: Caller, pick: string, n: nat)
    requires FailedTurns(states, c) && n < |states| && Retryable(states[0], c, pick)
    ensures Retryable(states[n], c, pick)
  {
    if n > 0 {
      RetryableAfterFailures(states, c, pick, n - 1);
      assert FailedTurn(states[n - 1], states[n - 1 + 1], c);
      FailureKeepsRetryable(states[n - 1], states[n], c, pick);
    }
  }

  /** Retry needs no repair: however many turns failed, from wherever in the call, the next
      one whose writes succeed is admitted and answers with a Running Run. */
  lemma RetrySucceeds(states: seq<Owners>, c: Caller, pick: string, last: Owners, found: string,
                      r: Result<TurnIdentity, TurnError>)
    requires FailedTurns(states, c) && Retryable(states[0], c, pick)
    requires TurnStep(states[|states| - 1], last, c, found, r) && NoWriteFailed(states[|states| - 1].g, last.g)
    ensures r.Success? && Identified(last, c, r.value)
  {
    RetryableAfterFailures(states, c, pick, |states| - 1);
    OnlyChoice(states[|states| - 1].g.bindings, c.session, c.agent, found, pick);
  }
}
