/** Answering an agent's permission requests: policy verdict, human decision, spend, answer,
    with everything else that touches the guard in between. */
module PermissionProtocol {
  import opened Basics
  import opened GuardModel

  /** What the agent asks, and which kinds of option it offers. */
  datatype Request = Request(
    agent: string, session: string, tool: string, operation: string, args: Hash,
    offersAllowOnce: bool, offersReject: bool)

  datatype Phase =
    | Asked
    | Waiting(ticket: string)
    | Woken(ticket: string, approved: bool)
    | Allowed(ticket: string)
    | Denied(option: bool)

  datatype TicketFacts = TicketFacts(id: string, agent: string, session: string, args: Hash, singleUse: bool,
                                     validated: bool)

  /** What the host reports of a ticket it has just spent for `rq`. */
  function Facts(id: string, rq: Request): TicketFacts {
    TicketFacts(id, rq.agent, rq.session, rq.args, true, true)
  }

  /** The bridge: an allow needs an offered allow-once option and the facts of a live
      single-use ticket of this very request; everything else is a deny. */
  function Answer(rq: Request, trust: Option<TicketFacts>): Phase {
    match trust
    case None => Denied(rq.offersReject)
    case Some(facts) =>
      if rq.offersAllowOnce && Trim(facts.id) != "" && facts.validated && facts.singleUse
         && facts.agent == rq.agent && facts.session == rq.session && facts.args == rq.args
      then Allowed(facts.id)
      else Denied(false)
  }

  /** The section under the first lock: evaluate, and spend at once if policy allows. */
  function FirstSection(g: Guard, r: nat, rq: Request, verdict: Verdict, nonce: string,
                        cancelled: bool): (Guard, Phase)
  {
    var (h, decision) := g.Evaluate(rq.agent, rq.session, rq.tool, rq.operation, rq.args, verdict, nonce);
    match decision
    case Block => (h, Answer(rq, None))
    case Ask(ticket) => (h, Waiting(ticket))
    case Allow(ticket) =>
      var (u, spent) := h.UseTicket(ticket, rq.args, Some(r));
      (u, Answer(rq, if spent && !cancelled then Some(Facts(ticket, rq)) else None))
  }

  /** The section under the second lock, after the wait. */
  function SecondSection(g: Guard, r: nat, rq: Request, ticket: string, approved: bool,
                         cancelled: bool): (Guard, Phase)
  {
    if !approved then (g, Answer(rq, None))
    else
      var (u, spent) := g.UseTicket(ticket, rq.args, Some(r));
      (u, Answer(rq, if spent && !cancelled then Some(Facts(ticket, rq)) else None))
  }

  lemma TicketIdIsWord(n: nat)
    ensures Trim(TicketId(n)) != ""
  {
    assert TrimStart(TicketId(n)) == TicketId(n);
    EndsInDigit(TicketId(n));
  }

  lemma EndsInDigit(s: string)
    requires s != "" && '0' <= s[|s| - 1] <= '9'
    ensures TrimEnd(s) == s
  {
  }

  /** The callback up to the wait. `cancelled0` and `cancelled` are what the cancel flag
      shows when it is read, `locked` whether the guard's lock is to be had. */
  method Begin(guard: GuardService, r: nat, rq: Request, verdict: Verdict, nonce: string, cancelled0: bool,
               locked: bool, cancelled: bool)
    returns (phase: Phase)
    modifies guard
    ensures (guard.Now(), phase) == if cancelled0 || !locked then (old(guard.Now()), Denied(false))
                                    else FirstSection(old(guard.Now()), r, rq, verdict, nonce, cancelled)
    ensures phase.Allowed? <==>
            && !cancelled0 && locked && !old(guard.estop) && verdict.Grant? && !cancelled && rq.offersAllowOnce
    ensures phase.Waiting? <==> !cancelled0 && locked && !old(guard.estop) && verdict.AskHuman?
    ensures phase.Waiting? || phase.Allowed? ==> phase.ticket == TicketId(old(guard.counter) + 1)
    ensures phase == Denied(true) <==>
            && !cancelled0 && locked && rq.offersReject
            && (old(guard.estop) || verdict.Refuse? || (verdict.Grant? && cancelled))
    ensures guard.spends == if !cancelled0 && locked && !old(guard.estop) && verdict.Grant?
                            then old(guard.spends) + [(TicketId(old(guard.counter) + 1), Some(r))]
                            else old(guard.spends)
  {
    if cancelled0 || !locked {
      return Denied(false);
    }
    var decision := guard.Evaluate(rq.agent, rq.session, rq.tool, rq.operation, rq.args, verdict, nonce);
    match decision
    case Block => return Answer(rq, None);
    case Ask(ticket) => return Waiting(ticket);
    case Allow(ticket) =>
      TicketIdIsWord(guard.counter);
      UseExactly(guard.Now(), ticket, rq.args, Some(r));
      var spent := guard.UseTicket(ticket, rq.args, Some(r));
      return Answer(rq, if spent && !cancelled then Some(Facts(ticket, rq)) else None);
  }

  /** The callback after the wait. */
  method Conclude(guard: GuardService, r: nat, rq: Request, ticket: string, approved: bool, locked: bool,
                  cancelled: bool)
    returns (phase: Phase)
    modifies guard
    ensures (guard.Now(), phase) == if !locked then (old(guard.Now()), Denied(false))
                                    else SecondSection(old(guard.Now()), r, rq, ticket, approved, cancelled)
    ensures var spent := locked && approved && Spendable(old(guard.Now()), ticket, rq.args);
            && (phase.Allowed? <==> spent && !cancelled && rq.offersAllowOnce && Trim(ticket) != "")
            && (phase == Denied(true) <==> locked && rq.offersReject && !(spent && !cancelled))
            && guard.spends == if spent then old(guard.spends) + [(ticket, Some(r))] else old(guard.spends)
    ensures phase.Allowed? || phase.Denied?
    ensures phase.Allowed? ==> phase.ticket == ticket
  {
    if !locked {
      return Denied(false);
    }
    if !approved {
      return Answer(rq, None);
    }
    UseExactly(guard.Now(), ticket, rq.args, Some(r));
    var spent := guard.UseTicket(ticket, rq.args, Some(r));
    return Answer(rq, if spent && !cancelled then Some(Facts(ticket, rq)) else None);
  }

  // ---------------------------------------------------------------- every interleaving

  datatype Protocol = Protocol(guard: Guard, requests: map<nat, Request>, phases: map<nat, Phase>)

  /** One step of any thread: of a callback, or of anything else that uses the guard. */
  datatype Step =
    | Arrives(r: nat, rq: Request)
    | RunsFirst(r: nat, verdict: Verdict, nonce: string, cancelled0: bool, locked: bool, cancelled: bool)
    | Wakes(r: nat, cancelled: bool, lost: bool)
    | RunsSecond(r: nat, locked: bool, cancelled: bool)
    | Decides(ticket: string, shown: Option<string>, approve: bool)
    | OtherEvaluates(agent: string, session: string, tool: string, operation: string, args: Hash, verdict: Verdict,
                     nonce: string)
    | OtherSpends(ticket: string, hash: Hash)
    | Revokes(ticket: string)
    | Extends(ticket: string, extra: nat, nonce: string)
    | EstopIs(pulled: bool)
    | TimePasses(millis: nat)

  function Take(p: Protocol, step: Step): Protocol {
    match step
    case Arrives(r, rq) =>
      if r in p.phases then p else p.(requests := p.requests[r := rq], phases := p.phases[r := Asked])
    case RunsFirst(r, verdict, nonce, cancelled0, locked, cancelled) =>
      if r !in p.phases || r !in p.requests || !p.phases[r].Asked? then p
      else if cancelled0 || !locked then p.(phases := p.phases[r := Denied(false)])
      else
        var (g, phase) := FirstSection(p.guard, r, p.requests[r], verdict, nonce, cancelled);
        p.(guard := g, phases := p.phases[r := phase])
    case Wakes(r, cancelled, lost) =>
      if r !in p.phases || !p.phases[r].Waiting? then p
      else
        var ticket := p.phases[r].ticket;
        if cancelled then p.(phases := p.phases[r := Woken(ticket, false)])
        else if ticket in p.guard.outcomes then p.(phases := p.phases[r := Woken(ticket, p.guard.outcomes[ticket])])
        else if lost then p.(phases := p.phases[r := Woken(ticket, false)])
        else p
    case RunsSecond(r, locked, cancelled) =>
      if r !in p.phases || r !in p.requests || !p.phases[r].Woken? then p
      else if !locked then p.(phases := p.phases[r := Denied(false)])
      else
        var (g, phase) := SecondSection(p.guard, r, p.requests[r], p.phases[r].ticket, p.phases[r].approved, cancelled);
        p.(guard := g, phases := p.phases[r := phase])
    case _ => p.(guard := Elsewhere(p.guard, step))
  }

  /** What the steps that belong to no callback do to the guard. */
  function Elsewhere(g: Guard, step: Step): Guard {
    match step
    case Decides(ticket, shown, approve) => g.Decide(ticket, shown, approve).0
    case OtherEvaluates(agent, session, tool, operation, args, verdict, nonce) =>
      g.Evaluate(agent, session, tool, operation, args, verdict, nonce).0
    case OtherSpends(ticket, hash) => g.UseTicket(ticket, hash, None).0
    case Revokes(ticket) => g.Revoke(ticket)
    case Extends(ticket, extra, nonce) => g.Extend(ticket, extra, nonce)
    case EstopIs(pulled) => g.(estop := pulled)
    case TimePasses(millis) => g.(now := g.now + millis)
    case _ => g
  }

  // ---------------------------------------------------------------- the invariant

  ghost predicate IdsLeft(g: Guard) {
    forall n: nat :: n > g.counter ==> TicketId(n) !in g.tickets
  }

  predicate For(t: Ticket, rq: Request) {
    t.agent == rq.agent && t.session == rq.session && t.args == rq.args
  }

  predicate Live(t: Ticket) {
    t.state.Pending? || t.state.Approved?
  }

  /** No ticket is spent twice, and a spent one can never be spent again. */
  ghost predicate SpentOnce(g: Guard) {
    && (forall i :: 0 <= i < |g.spends| ==> g.spends[i].0 in g.tickets && !Live(g.tickets[g.spends[i].0]))
    && (forall i, j :: 0 <= i < j < |g.spends| ==> g.spends[i].0 != g.spends[j].0)
  }

  /** A ticket leaves Pending only by a human decision that its waiters are told, and an
      approved or spent one was granted by policy or approved by a human. */
  ghost predicate Decided(g: Guard) {
    && (forall id :: id in g.outcomes ==> id in g.tickets && !g.tickets[id].state.Pending? && id !in g.granted)
    && (forall id :: id in g.tickets && g.tickets[id].state.Approved? ==> Cleared(g, id))
    && (forall i :: 0 <= i < |g.spends| ==> Cleared(g, g.spends[i].0))
    && (forall id :: id in g.granted ==> id in g.tickets && !g.tickets[id].state.Pending?)
  }

  predicate Cleared(g: Guard, id: string) {
    id in g.granted || (id in g.outcomes && g.outcomes[id])
  }

  ghost predicate Sane(g: Guard) {
    && IdsLeft(g) && SpentOnce(g) && Decided(g)
    && forall id :: id in g.tickets ==> g.tickets[id].singleUse
  }

  function Holds(phase: Phase): Option<string> {
    match phase
    case Waiting(t) => Some(t)
    case Woken(t, _) => Some(t)
    case Allowed(t) => Some(t)
    case _ => None
  }

  /** The ticket a request holds was minted for it, is held by no other request, and behind
      an allow it was spent by this request. */
  ghost predicate Backed(p: Protocol, r: nat) {
    r in p.requests && r in p.phases && Holds(p.phases[r]).Some? ==>
      var id := Holds(p.phases[r]).value;
      && Trim(id) != "" && id in p.guard.tickets && For(p.guard.tickets[id], p.requests[r])
      && (p.phases[r].Allowed? ==> (id, Some(r)) in p.guard.spends)
      && (p.phases[r].Woken? && p.phases[r].approved ==> id in p.guard.outcomes && p.guard.outcomes[id])
  }

  ghost predicate OneHolder(phases: map<nat, Phase>) {
    forall r, q :: r in phases && q in phases && Holds(phases[r]).Some? && Holds(phases[r]) == Holds(phases[q]) ==>
      r == q
  }

  ghost predicate Inv(p: Protocol) {
    Sane(p.guard) && p.phases.Keys == p.requests.Keys && OneHolder(p.phases) && forall r :: Backed(p, r)
  }

  /** Tickets keep what they were minted for, and spends are only added. */
  ghost predicate GuardGrows(g: Guard, h: Guard) {
    && (forall id :: id in g.tickets ==> id in h.tickets && SameBinding(g.tickets[id], h.tickets[id]))
    && g.spends <= h.spends
    && (forall id :: id in g.outcomes ==> id in h.outcomes && h.outcomes[id] == g.outcomes[id])
  }

  predicate SameBinding(a: Ticket, b: Ticket) {
    a.agent == b.agent && a.session == b.session && a.args == b.args
  }

  // ---------------------------------------------------------------- the guard's operations

  lemma EvaluateSane(g: Guard, agent: string, session: string, tool: string, operation: string, args: Hash,
                     verdict: Verdict, nonce: string)
    requires Sane(g)
    ensures var (h, d) := g.Evaluate(agent, session, tool, operation, args, verdict, nonce);
            && Sane(h) && GuardGrows(g, h)
            && (!d.Block? ==> d.ticket !in g.tickets && d.ticket in h.tickets && h.tickets[d.ticket].agent == agent
                              && h.tickets[d.ticket].session == session && h.tickets[d.ticket].args == args)
  {
    var (h, d) := g.Evaluate(agent, session, tool, operation, args, verdict, nonce);
    if !d.Block? {
      assert TicketId(g.counter + 1) !in g.tickets;
      forall n: nat | n > h.counter ensures TicketId(n) !in h.tickets {
        if TicketId(n) == TicketId(g.counter + 1) {
          TicketIdInjective(n, g.counter + 1);
        }
      }
    }
  }

  lemma UseSane(g: Guard, id: string, hash: Hash, user: Option<nat>)
    requires Sane(g)
    ensures var (h, ok) := g.UseTicket(id, hash, user);
            && Sane(h) && GuardGrows(g, h)
            && (ok ==> id in g.tickets && h.spends == g.spends + [(id, user)])
  {
    var (h, ok) := g.UseTicket(id, hash, user);
    if ok {
      forall i | 0 <= i < |g.spends| ensures g.spends[i].0 != id {
      }
    }
  }

  lemma DecideSane(g: Guard, id: string, nonce: Option<string>, approve: bool)
    requires Sane(g)
    ensures var h := g.Decide(id, nonce, approve).0; Sane(h) && GuardGrows(g, h)
  {
  }

  lemma RevokeSane(g: Guard, id: string)
    requires Sane(g)
    ensures Sane(g.Revoke(id)) && GuardGrows(g, g.Revoke(id))
  {
  }

  lemma ExtendSane(g: Guard, id: string, extra: nat, nonce: string)
    requires Sane(g)
    ensures Sane(g.Extend(id, extra, nonce)) && GuardGrows(g, g.Extend(id, extra, nonce))
  {
  }

  /** The emergency stop and the clock touch no ticket. */
  lemma ClockSane(g: Guard, estop: bool, now: nat)
    requires Sane(g)
    ensures var h := g.(estop := estop, now := now); Sane(h) && GuardGrows(g, h)
  {
  }

  lemma ElsewhereSane(g: Guard, step: Step)
    requires Sane(g)
    ensures Sane(Elsewhere(g, step)) && GuardGrows(g, Elsewhere(g, step))
  {
    match step
    case Decides(ticket, shown, approve) => DecideSane(g, ticket, shown, approve);
    case OtherEvaluates(agent, session, tool, operation, args, verdict, nonce) =>
      EvaluateSane(g, agent, session, tool, operation, args, verdict, nonce);
    case OtherSpends(ticket, hash) => UseSane(g, ticket, hash, None);
    case Revokes(ticket) => RevokeSane(g, ticket);
    case Extends(ticket, extra, nonce) => ExtendSane(g, ticket, extra, nonce);
    case EstopIs(pulled) => ClockSane(g, pulled, g.now);
    case TimePasses(millis) => ClockSane(g, g.estop, g.now + millis);
    case _ =>
  }

  // ---------------------------------------------------------------- every step keeps the invariant

  /** The guard moved on; no request did. */
  lemma GuardMoved(p: Protocol, h: Guard)
    requires Inv(p) && Sane(h) && GuardGrows(p.guard, h)
    ensures Inv(p.(guard := h))
  {
    forall r ensures Backed(p.(guard := h), r) {
      assert Backed(p, r);
    }
  }

  /** One request moved to a phase that holds nothing, or a ticket that is its own. */
  lemma Rephased(p: Protocol, h: Guard, r: nat, phase: Phase)
    requires Inv(p) && r in p.phases && Sane(h) && GuardGrows(p.guard, h)
    requires Holds(phase).Some? ==>
               && Trim(Holds(phase).value) != "" && Holds(phase).value in h.tickets
               && For(h.tickets[Holds(phase).value], p.requests[r])
               && (forall q :: q in p.phases && q != r ==> Holds(p.phases[q]) != Holds(phase))
               && (phase.Allowed? ==> (phase.ticket, Some(r)) in h.spends)
               && (phase.Woken? && phase.approved ==> phase.ticket in h.outcomes && h.outcomes[phase.ticket])
    ensures Inv(p.(guard := h, phases := p.phases[r := phase]))
  {
    var q' := p.(guard := h, phases := p.phases[r := phase]);
    forall q ensures Backed(q', q) {
      assert Backed(p, q);
    }
    assert q'.phases.Keys == p.phases.Keys;
  }

  lemma FirstKeeps(p: Protocol, r: nat, verdict: Verdict, nonce: string, cancelled: bool)
    requires Inv(p) && r in p.phases
    ensures var (g, phase) := FirstSection(p.guard, r, p.requests[r], verdict, nonce, cancelled);
            Inv(p.(guard := g, phases := p.phases[r := phase]))
  {
    var rq := p.requests[r];
    var (h, d) := p.guard.Evaluate(rq.agent, rq.session, rq.tool, rq.operation, rq.args, verdict, nonce);
    EvaluateSane(p.guard, rq.agent, rq.session, rq.tool, rq.operation, rq.args, verdict, nonce);
    if !d.Block? {
      TicketIdIsWord(p.guard.counter + 1);
      forall q | q in p.phases ensures Holds(p.phases[q]) != Some(d.ticket) {
        assert Backed(p, q);
      }
    }
    var (g, phase) := FirstSection(p.guard, r, rq, verdict, nonce, cancelled);
    if d.Allow? {
      UseSane(h, d.ticket, rq.args, Some(r));
      var (u, spent) := h.UseTicket(d.ticket, rq.args, Some(r));
      if spent {
        assert u.spends[|h.spends|] == (d.ticket, Some(r));
      }
    }
    Rephased(p, g, r, phase);
  }

  lemma SecondKeeps(p: Protocol, r: nat, cancelled: bool)
    requires Inv(p) && r in p.phases && p.phases[r].Woken?
    ensures var (g, phase) :=
            SecondSection(p.guard, r, p.requests[r], p.phases[r].ticket, p.phases[r].approved, cancelled);
            Inv(p.(guard := g, phases := p.phases[r := phase]))
  {
    var rq, ticket := p.requests[r], p.phases[r].ticket;
    assert Backed(p, r) && Holds(p.phases[r]) == Some(ticket);
    UseSane(p.guard, ticket, rq.args, Some(r));
    var (u, spent) := p.guard.UseTicket(ticket, rq.args, Some(r));
    if spent {
      assert u.spends[|p.guard.spends|] == (ticket, Some(r));
    }
    var (g, phase) := SecondSection(p.guard, r, rq, ticket, p.phases[r].approved, cancelled);
    Rephased(p, g, r, phase);
  }

  lemma ArrivalKeeps(p: Protocol, r: nat, rq: Request)
    requires Inv(p)
    ensures Inv(Take(p, Arrives(r, rq)))
  {
    var t := Take(p, Arrives(r, rq));
    forall q ensures Backed(t, q) {
      assert Backed(p, q);
    }
  }

  lemma WakeKeeps(p: Protocol, r: nat, cancelled: bool, lost: bool)
    requires Inv(p)
    ensures Inv(Take(p, Wakes(r, cancelled, lost)))
  {
    if r in p.phases && p.phases[r].Waiting? {
      assert Backed(p, r);
      var ticket := p.phases[r].ticket;
      forall approved | approved ==> ticket in p.guard.outcomes && p.guard.outcomes[ticket]
        ensures Inv(p.(phases := p.phases[r := Woken(ticket, approved)]))
      {
        Rephased(p, p.guard, r, Woken(ticket, approved));
        assert p.(guard := p.guard, phases := p.phases[r := Woken(ticket, approved)])
               == p.(phases := p.phases[r := Woken(ticket, approved)]);
      }
    }
  }

  lemma CallbackKeeps(p: Protocol, step: Step)
    requires Inv(p) && (step.RunsFirst? || step.RunsSecond?)
    ensures Inv(Take(p, step))
  {
    var r := step.r;
    if r in p.phases {
      Rephased(p, p.guard, r, Denied(false));
      if step.RunsFirst? {
        FirstKeeps(p, r, step.verdict, step.nonce, step.cancelled);
      } else if p.phases[r].Woken? {
        SecondKeeps(p, r, step.cancelled);
      }
    }
  }

  lemma TakeKeeps(p: Protocol, step: Step)
    requires Inv(p)
    ensures Inv(Take(p, step))
  {
    match step
    case Arrives(r, rq) => ArrivalKeeps(p, r, rq);
    case RunsFirst(_, _, _, _, _, _) => CallbackKeeps(p, step);
    case Wakes(r, cancelled, lost) => WakeKeeps(p, r, cancelled, lost);
    case RunsSecond(_, _, _) => CallbackKeeps(p, step);
    case _ =>
      ElsewhereSane(p.guard, step);
      GuardMoved(p, Elsewhere(p.guard, step));
  }

  // ---------------------------------------------------------------- the result

  function Run(steps: seq<Step>): Protocol {
    if steps == [] then Protocol(EMPTY_GUARD, map[], map[])
    else Take(Run(steps[..|steps| - 1]), steps[|steps| - 1])
  }

  lemma {:induction false} RunKeeps(steps: seq<Step>)
    ensures Inv(Run(steps))
  {
    if steps != [] {
      RunKeeps(steps[..|steps| - 1]);
      TakeKeeps(Run(steps[..|steps| - 1]), steps[|steps| - 1]);
    }
  }

  /** How many of the recorded spends are of this ticket. */
  function SpendCount(spends: seq<(string, Option<nat>)>, id: string): nat {
    if spends == [] then 0
    else SpendCount(spends[..|spends| - 1], id) + if spends[|spends| - 1].0 == id then 1 else 0
  }

  lemma {:induction false} CountOfDistinct(spends: seq<(string, Option<nat>)>, id: string)
    requires forall i, j :: 0 <= i < j < |spends| ==> spends[i].0 != spends[j].0
    ensures SpendCount(spends, id) <= 1
    ensures SpendCount(spends, id) == 1 <==> exists i :: 0 <= i < |spends| && spends[i].0 == id
  {
    if spends != [] {
      var n := |spends| - 1;
      CountOfDistinct(spends[..n], id);
      if spends[n].0 == id {
        assert forall i :: 0 <= i < n ==> spends[..n][i].0 == spends[i].0;
      } else if exists i :: 0 <= i < |spends| && spends[i].0 == id {
        var i :| 0 <= i < |spends| && spends[i].0 == id;
        assert spends[..n][i].0 == id;
      }
    }
  }

  /** Under every interleaving: an allow is backed by a ticket minted for this agent, Session
      and arguments, granted by policy or approved by a human, spent successfully exactly
      once, by this request; and no two allows share a ticket. */
  lemma AllowsAreBacked(steps: seq<Step>, r: nat, q: nat)
    requires var p := Run(steps); r in p.phases && p.phases[r].Allowed?
    ensures var p := Run(steps); var id := p.phases[r].ticket;
            && r in p.requests && id in p.guard.tickets && For(p.guard.tickets[id], p.requests[r])
            && Cleared(p.guard, id)
            && SpendCount(p.guard.spends, id) == 1 && (id, Some(r)) in p.guard.spends
            && (q in p.phases && q != r && p.phases[q].Allowed? ==> p.phases[q].ticket != id)
  {
    var p := Run(steps);
    var id := p.phases[r].ticket;
    RunKeeps(steps);
    assert Backed(p, r) && Holds(p.phases[r]) == Some(id);
    var i :| 0 <= i < |p.guard.spends| && p.guard.spends[i] == (id, Some(r));
    CountOfDistinct(p.guard.spends, id);
    if q in p.phases && q != r && p.phases[q].Allowed? {
      assert Holds(p.phases[q]) == Some(p.phases[q].ticket);
    }
  }

  /** What the first section of a callback does, in whatever state it is reached: without the
      lock or after a cancel nothing; otherwise as policy says. */
  lemma FirstSectionExactly(p: Protocol, r: nat, verdict: Verdict, nonce: string, cancelled0: bool, locked: bool,
                            cancelled: bool)
    requires r in p.phases && r in p.requests && p.phases[r].Asked?
    ensures var q := Take(p, RunsFirst(r, verdict, nonce, cancelled0, locked, cancelled));
            var free := !cancelled0 && locked && !p.guard.estop;
            && r in q.phases && q.requests == p.requests && q.phases == p.phases[r := q.phases[r]]
            && (cancelled0 || !locked ==> q.guard == p.guard && q.phases[r] == Denied(false))
            && (q.phases[r].Allowed? <==>
                free && verdict == Grant && !cancelled && p.requests[r].offersAllowOnce)
            && (q.phases[r].Waiting? <==> free && verdict == AskHuman)
            && q.guard.spends == if free && verdict == Grant
                                 then p.guard.spends + [(TicketId(p.guard.counter + 1), Some(r))] else p.guard.spends
  {
    TicketIdIsWord(p.guard.counter + 1);
    var rq := p.requests[r];
    var (h, d) := p.guard.Evaluate(rq.agent, rq.session, rq.tool, rq.operation, rq.args, verdict, nonce);
    EvaluateExactly(p.guard, rq.agent, rq.session, rq.tool, rq.operation, rq.args, verdict, nonce);
    if d.Allow? {
      UseExactly(h, d.ticket, rq.args, Some(r));
    }
  }

  /** What others do to the guard: a spend of theirs counts like one's own, time runs on, the
      emergency stop is what it was last set to, and a decision is known to whoever waits. */
  lemma ElsewhereExactly(g: Guard, id: string, hash: Hash, millis: nat, pulled: bool, shown: Option<string>,
                         approve: bool)
    ensures var h := Elsewhere(g, OtherSpends(id, hash));
            h.spends == if Spendable(g, id, hash) then g.spends + [(id, None)] else g.spends
    ensures Elsewhere(g, TimePasses(millis)) == g.(now := g.now + millis)
    ensures Elsewhere(g, EstopIs(pulled)) == g.(estop := pulled)
    ensures !Spendable(Elsewhere(g, Revokes(id)), id, hash)
    ensures id in g.tickets && g.tickets[id].state == Pending && shown == None ==>
              var h := Elsewhere(g, Decides(id, shown, approve));
              && Get(h.outcomes, id) == Some(approve)
              && (Spendable(h.(estop := false, now := 0), id, g.tickets[id].args) <==> approve)
  {
    UseExactly(g, id, hash, None);
  }

  /** And what a wait comes to: a cancel ends it without an approval, a decision with what was
      decided, a lost channel without an approval, and nothing else ends it; without an
      approval, without the lock, or after a cancel the request is denied and nothing spent
      but, at most, its own approved ticket. */
  lemma WaitExactly(p: Protocol, r: nat, cancelled: bool, lost: bool, locked: bool, late: bool)
    requires r in p.phases && r in p.requests && p.phases[r].Waiting?
    ensures var id := p.phases[r].ticket; var q := Take(p, Wakes(r, cancelled, lost));
            && q == p.(phases := q.phases) && r in q.phases
            && (q.phases[r].Waiting? <==> !cancelled && id !in p.guard.outcomes && !lost)
            && (!q.phases[r].Waiting? ==>
                q.phases[r] == Woken(id, !cancelled && id in p.guard.outcomes && p.guard.outcomes[id]))
            && var u := Take(q, RunsSecond(r, locked, late));
            && r in u.phases
            && (u.phases[r].Allowed? ==>
                !cancelled && id in p.guard.outcomes && p.guard.outcomes[id] && locked && !late)
            && (u.guard.spends == p.guard.spends
                || (!cancelled && id in p.guard.outcomes && p.guard.outcomes[id] && locked
                    && u.guard.spends == p.guard.spends + [(id, Some(r))]))
  {
    UseExactly(p.guard, p.phases[r].ticket, p.requests[r].args, Some(r));
  }

  /** And nothing but these conditions keeps a decision from the agent: whatever happened before,
      a waiting request that wakes up once its ticket was decided, undisturbed from there, is
      allowed exactly if the ticket was approved and can be spent and allow-once is on offer. */
  lemma DecisionIsAnswered(steps: seq<Step>, r: nat, lost: bool)
    requires var p := Run(steps);
             r in p.phases && p.phases[r].Waiting? && p.phases[r].ticket in p.guard.outcomes
    ensures var p := Run(steps); var id := p.phases[r].ticket;
            var q := Take(Take(p, Wakes(r, false, lost)), RunsSecond(r, true, false));
            && r in p.requests && id in p.guard.tickets && r in q.phases
            && var t := p.guard.tickets[id];
            && (q.phases[r] == Allowed(id) <==>
                && p.guard.outcomes[id] && !p.guard.estop && t.state.Approved?
                && (t.expires == 0 || p.guard.now <= t.expires) && p.requests[r].offersAllowOnce)
            && (q.phases[r] == Allowed(id) || q.phases[r].Denied?)
  {
    var p := Run(steps);
    RunKeeps(steps);
    assert Backed(p, r) && Holds(p.phases[r]) == Some(p.phases[r].ticket);
    UseExactly(p.guard, p.phases[r].ticket, p.requests[r].args, Some(r));
  }

  /** A ticket a human rejected is never spent, by anyone. */
  lemma RejectedNeverSpent(steps: seq<Step>, id: string, user: Option<nat>)
    requires var g := Run(steps).guard; id in g.outcomes && !g.outcomes[id]
    ensures (id, user) !in Run(steps).guard.spends
  {
    RunKeeps(steps);
  }
}
