/** The guard: the one decider that mints and spends authorization tickets. */
module GuardModel {
  import opened Basics

  /** An argument fingerprint. Hashing is taken to be injective: a fingerprint of
      argument texts never equals one of a tool, an operation and a fingerprint. */
  datatype Hash = OfParts(parts: seq<string>) | InContext(tool: string, operation: string, inner: Hash)

  datatype TicketState = Pending | Approved | Used | Rejected | Expired | Revoked

  datatype Ticket = Ticket(
    agent: string, session: string, tool: string, operation: string, args: Hash,
    expires: nat, singleUse: bool, nonce: string, state: TicketState)
  {
    predicate MatchesContext(hash: Hash) {
      InContext(tool, operation, args) == hash
    }
  }

  /** What policy, profile, floors and reviewer make of an operation. */
  datatype Verdict = Refuse | AskHuman | Grant

  datatype Decision = Block | Ask(ticket: string) | Allow(ticket: string)

  function TicketId(n: nat): string {
    "tkt:" + Decimal(n)
  }

  lemma TicketIdInjective(m: nat, n: nat)
    requires TicketId(m) == TicketId(n)
    ensures m == n
  {
    assert Decimal(m) == TicketId(m)[4..] && Decimal(n) == TicketId(n)[4..];
    DecimalInjective(m, n);
  }

  /** `outcomes` holds what waiters were told. The last three fields are a record of what
      happened: which tickets were granted without a human, and the successful spends with
      the permission request that made them, if one did. */
  datatype Guard = Guard(
    tickets: map<string, Ticket>, counter: nat, estop: bool, now: nat, outcomes: map<string, bool>,
    granted: set<string>, spends: seq<(string, Option<nat>)>)
  {

    function Evaluate(agent: string, session: string, tool: string, operation: string, args: Hash, verdict: Verdict,
                      nonce: string): (Guard, Decision)
    {
      if estop || verdict.Refuse? then (this, Block)
      else
        var id := TicketId(counter + 1);
        var ticket :=
          Ticket(agent, session, tool, operation, args, now + 60000, true, nonce,
                 if verdict.AskHuman? then Pending else Approved);
        (this.(tickets := tickets[id := ticket], counter := counter + 1,
               granted := if verdict.Grant? then granted + {id} else granted),
         if verdict.AskHuman? then Ask(id) else Allow(id))
    }

    /** Approval first, then validity, arguments and single use. */
    function UseTicket(id: string, hash: Hash, user: Option<nat>): (Guard, bool) {
      if estop || id !in tickets then (this, false)
      else
        var t := tickets[id];
        if t.expires != 0 && now > t.expires then (this.(tickets := tickets[id := t.(state := Expired)]), false)
        else if !t.state.Approved? then (this, false)
        else if (t.args != hash && !t.MatchesContext(hash)) || (t.MatchesContext(hash) && !t.singleUse) then
          (this.(tickets := tickets[id := t.(state := Rejected)]), false)
        else
          (this.(tickets := if t.singleUse then tickets[id := t.(state := Used)] else tickets,
                 spends := spends + [(id, user)]), true)
    }

    /** A human decides a pending ticket; without its nonce nothing happens. `None` is the
        internal door, which needs no nonce. */
    function Decide(id: string, nonce: Option<string>, approve: bool): (Guard, bool) {
      if id !in tickets || !tickets[id].state.Pending? then (this, false)
      else if nonce.Some? && (nonce.value == "" || nonce.value != tickets[id].nonce) then (this, false)
      else
        (this.(tickets := tickets[id := tickets[id].(state := if approve then Approved else Revoked)],
               outcomes := outcomes[id := approve]), true)
    }

    function Revoke(id: string): Guard {
      if id in tickets then this.(tickets := tickets[id := tickets[id].(state := Revoked)]) else this
    }

    /** Only a pending ticket can be given more time, and it gets a new nonce. */
    function Extend(id: string, extra: nat, nonce: string): Guard {
      if id !in tickets || !tickets[id].state.Pending? then this
      else this.(tickets := tickets[id := tickets[id].(expires := tickets[id].expires + extra, nonce := nonce)])
    }
  }

  /** A spend of this ticket with this fingerprint succeeds: no emergency stop, and the ticket is
      approved, in time, and of this fingerprint, plain or bound to its tool and operation. */
  predicate Spendable(g: Guard, id: string, hash: Hash) {
    && !g.estop && id in g.tickets
    && var t := g.tickets[id];
       && t.state.Approved? && (t.expires == 0 || g.now <= t.expires)
       && (hash == t.args || (t.singleUse && hash == InContext(t.tool, t.operation, t.args)))
  }

  predicate Overdue(g: Guard, id: string)
    requires id in g.tickets
  {
    g.tickets[id].expires != 0 && g.now > g.tickets[id].expires
  }

  /** What trying to spend it makes of a ticket. */
  predicate SpentTicket(g: Guard, id: string, hash: Hash, after: Ticket)
    requires id in g.tickets
  {
    var t := g.tickets[id];
    && after == t.(state := after.state)
    && (Spendable(g, id, hash) ==> after.state == if t.singleUse then Used else Approved)
    && (!g.estop && Overdue(g, id) ==> after.state.Expired?)
    && (!g.estop && !Overdue(g, id) && t.state.Approved? && !Spendable(g, id, hash) ==> after.state.Rejected?)
    && (g.estop || (!Overdue(g, id) && !t.state.Approved?) ==> after == t)
  }

  /** A spend succeeds exactly then; it uses up a single-use ticket, and a failed one spends
      nothing. An overdue ticket expires, and an approved one tried for other arguments is rejected. */
  lemma UseExactly(g: Guard, id: string, hash: Hash, user: Option<nat>)
    ensures var (h, ok) := g.UseTicket(id, hash, user);
            && (ok <==> Spendable(g, id, hash))
            && h.spends == (if ok then g.spends + [(id, user)] else g.spends)
            && h == g.(tickets := h.tickets, spends := h.spends) && h.tickets.Keys == g.tickets.Keys
            && (forall other :: other in g.tickets && other != id ==> h.tickets[other] == g.tickets[other])
            && (id in g.tickets ==> SpentTicket(g, id, hash, h.tickets[id]))
  {
    if id in g.tickets {
      var t := g.tickets[id];
      assert t.args != InContext(t.tool, t.operation, t.args);
    }
  }

  /** The life of a ticket asked of a human: it cannot be spent before a decision, only its own
      nonce decides, and within a minute it can be spent for its arguments, once, exactly if
      the decision was to approve. */
  lemma AskedTicketLives(g: Guard, agent: string, session: string, tool: string, operation: string, args: Hash,
                         nonce: string, shown: string, approve: bool, millis: nat, hash: Hash, user: Option<nat>)
    requires !g.estop && nonce != ""
    ensures var (h, decision) := g.Evaluate(agent, session, tool, operation, args, AskHuman, nonce);
            && decision.Ask? && !h.UseTicket(decision.ticket, hash, user).1
            && var (k, decided) := h.Decide(decision.ticket, Some(shown), approve);
            && (decided <==> shown == nonce)
            && var (u, spent) := k.(now := k.now + millis).UseTicket(decision.ticket, hash, user);
            && (spent <==> decided && approve && millis <= 60000
                           && (hash == args || hash == InContext(tool, operation, args)))
            && (spent ==> !u.UseTicket(decision.ticket, hash, user).1)
  {
    var (h, decision) := g.Evaluate(agent, session, tool, operation, args, AskHuman, nonce);
    var k := h.Decide(decision.ticket, Some(shown), approve).0;
    UseExactly(h, decision.ticket, hash, user);
    UseExactly(k.(now := k.now + millis), decision.ticket, hash, user);
    UseExactly(k.(now := k.now + millis).UseTicket(decision.ticket, hash, user).0, decision.ticket, hash, user);
  }

  /** A revoked ticket is never spent and never decided; giving a ticket more time works for
      pending ones only, which then answer to the new nonce and no longer to the old. */
  lemma RevokedAndExtended(g: Guard, id: string, extra: nat, nonce: string, hash: Hash, shown: string, approve: bool)
    ensures !Spendable(g.Revoke(id), id, hash) && !g.Revoke(id).Decide(id, Some(shown), approve).1
    ensures g.Revoke(id) == g.(tickets := g.Revoke(id).tickets)
            && forall other :: other != id ==> Get(g.Revoke(id).tickets, other) == Get(g.tickets, other)
    ensures var h := g.Extend(id, extra, nonce);
            && (if id in g.tickets && g.tickets[id].state == Pending
                then id in h.tickets && h.tickets[id].expires == g.tickets[id].expires + extra
                     && (h.Decide(id, Some(shown), approve).1 <==> shown == nonce && shown != "")
                else h == g)
            && h == g.(tickets := h.tickets)
            && forall other :: other != id ==> Get(h.tickets, other) == Get(g.tickets, other)
  {
  }

  /** A verdict is carried out: a refusal mints nothing, a question a pending ticket, a grant an
      approved one that is recorded as granted and lives a minute. */
  lemma EvaluateExactly(g: Guard, agent: string, session: string, tool: string, operation: string, args: Hash,
                        verdict: Verdict, nonce: string)
    ensures var (h, decision) := g.Evaluate(agent, session, tool, operation, args, verdict, nonce);
            && (decision.Block? <==> g.estop || verdict.Refuse?) && (decision.Block? ==> h == g)
            && (decision.Ask? <==> !g.estop && verdict.AskHuman?) && (decision.Allow? <==> !g.estop && verdict.Grant?)
            && (!decision.Block? ==>
                && h == g.(tickets := h.tickets, counter := g.counter + 1, granted := h.granted)
                && decision.ticket == TicketId(h.counter) && decision.ticket in h.tickets
                && h.tickets[decision.ticket].args == args
                && (Spendable(h, decision.ticket, args) <==> decision.Allow?)
                && (h.granted == if decision.Allow? then g.granted + {decision.ticket} else g.granted)
                && forall id :: id in g.tickets && id != decision.ticket ==> Get(h.tickets, id) == Some(g.tickets[id]))
  {
  }

  /** The guard an app starts with: tickets live in memory only. */
  const EMPTY_GUARD := Guard(map[], 0, false, 0, map[], {}, [])

  class GuardService {
    var tickets: map<string, Ticket>
    var counter: nat
    var estop: bool
    var now: nat
    var outcomes: map<string, bool>
    var granted: set<string>
    var spends: seq<(string, Option<nat>)>

    ghost function Now(): Guard reads this {
      Guard(tickets, counter, estop, now, outcomes, granted, spends)
    }

    constructor ()
      ensures Now() == EMPTY_GUARD
    {
      tickets, counter, estop, now, outcomes, granted, spends := map[], 0, false, 0, map[], {}, [];
    }

    method Evaluate(agent: string, session: string, tool: string, operation: string, args: Hash, verdict: Verdict,
                    nonce: string)
      returns (decision: Decision)
      modifies this
      ensures (Now(), decision) == old(Now()).Evaluate(agent, session, tool, operation, args, verdict, nonce)
    {
      if estop || verdict.Refuse? {
        return Block;
      }
      counter := counter + 1;
      var id := TicketId(counter);
      tickets :=
        tickets[id :=
                Ticket(agent, session, tool, operation, args, now + 60000, true, nonce,
                       if verdict.AskHuman? then Pending else Approved)];
      if verdict.AskHuman? {
        return Ask(id);
      }
      granted := granted + {id};
      return Allow(id);
    }

    method UseTicket(id: string, hash: Hash, user: Option<nat>) returns (ok: bool)
      modifies this
      ensures (Now(), ok) == old(Now()).UseTicket(id, hash, user)
    {
      if estop || id !in tickets {
        return false;
      }
      var t := tickets[id];
      if t.expires != 0 && now > t.expires {
        tickets := tickets[id := t.(state := Expired)];
        return false;
      }
      if !t.state.Approved? {
        return false;
      }
      if (t.args != hash && !t.MatchesContext(hash)) || (t.MatchesContext(hash) && !t.singleUse) {
        tickets := tickets[id := t.(state := Rejected)];
        return false;
      }
      if t.singleUse {
        tickets := tickets[id := t.(state := Used)];
      }
      spends := spends + [(id, user)];
      return true;
    }

    method Decide(id: string, nonce: Option<string>, approve: bool) returns (ok: bool)
      modifies this
      ensures (Now(), ok) == old(Now()).Decide(id, nonce, approve)
      ensures ok <==>
              && id in old(tickets) && old(tickets)[id].state == Pending
              && (nonce == None || (nonce.value != "" && nonce.value == old(tickets)[id].nonce))
      ensures ok ==> outcomes == old(outcomes)[id := approve] && id in tickets
                     && (tickets[id].state == Approved <==> approve)
      ensures !ok ==> tickets == old(tickets) && outcomes == old(outcomes)
    {
      if id !in tickets || !tickets[id].state.Pending?
        || (nonce.Some? && (nonce.value == "" || nonce.value != tickets[id].nonce)) {
        return false;
      }
      tickets := tickets[id := tickets[id].(state := if approve then Approved else Revoked)];
      outcomes := outcomes[id := approve];
      return true;
    }
  }
}
