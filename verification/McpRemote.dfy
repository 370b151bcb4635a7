/** Remote MCP calls in two halves: the request mints a ticket and stores the exact call,
    the commit takes the stored call, spends the ticket and executes. */
module McpRemote {
  import opened Basics
  import opened GuardModel
  import Protocol = PermissionProtocol

  /** The parameters of a call: the tool name in them, if any, and their JSON text. */
  datatype Params = Params(name: Option<string>, text: string)

  datatype Call = Call(store: string, verb: string, params: Params)

  const TOOLS_CALL := "tools/call"

  function CallHash(call: Call): Hash {
    OfParts(["mcp.remote_tools_call", call.store,
             if call.params.name.Some? then call.params.name.value else "<unnamed>", call.params.text])
  }

  /** A ticket covers one store and the very parameters; a call without a name and one named
      `<unnamed>` look alike only if their texts do. */
  lemma HashCovers(a: Call, b: Call)
    ensures CallHash(a) == CallHash(b) <==>
            && a.store == b.store && a.params.text == b.params.text
            && (a.params.name == b.params.name
                || (a.params.name == None && b.params.name == Some("<unnamed>"))
                || (a.params.name == Some("<unnamed>") && b.params.name == None))
  {
    var x, y := CallHash(a).parts, CallHash(b).parts;
    if x == y {
      assert x[1] == y[1] && x[2] == y[2] && x[3] == y[3];
    }
  }

  /** Where a commit is between two locked sections. */
  datatype Phase = Taken(ticket: string, call: Call) | Spent(ticket: string, call: Call) | Ended

  /** A call sent to a server: by a request itself, or by a commit under a ticket. */
  datatype Sent =
    | Direct(call: Call)
    | Committed(commit: nat, ticket: string, call: Call)
  {
    function Under(): Option<string> {
      if Direct? then None else Some(ticket)
    }
  }

  /** `requested` records the call behind every ticket of a request, `executed` every call
      sent to a server. */
  datatype Remote = Remote(
    guard: Guard, pending: map<string, Call>, commits: map<nat, Phase>,
    requested: map<string, Call>, executed: seq<Sent>)

  datatype Step =
    | Requests(call: Call, reachable: bool, verdict: Verdict, nonce: string)
    | Takes(commit: nat, ticket: string)
    | Spends(commit: nat)
    | Executes(commit: nat, reachable: bool)
    | GuardActs(step: Protocol.Step)

  function Take(r: Remote, step: Step): Remote {
    match step
    case Requests(call, reachable, verdict, nonce) =>
      if !reachable then r
      else if call.verb != TOOLS_CALL then r.(executed := r.executed + [Direct(call)])
      else
        var (g, d) :=
          r.guard.Evaluate("everyaios", "mcp", "mcp.remote_tools_call", "external_network", CallHash(call), verdict,
                           nonce);
        if d.Block? then r.(guard := g)
        else r.(guard := g, pending := r.pending[d.ticket := call], requested := r.requested[d.ticket := call])
    case Takes(commit, ticket) =>
      if commit in r.commits then r
      else if ticket !in r.pending then r.(commits := r.commits[commit := Ended])
      else r.(pending := r.pending - {ticket}, commits := r.commits[commit := Taken(ticket, r.pending[ticket])])
    case Spends(commit) =>
      if commit !in r.commits || !r.commits[commit].Taken? then r
      else
        var ticket, call := r.commits[commit].ticket, r.commits[commit].call;
        var (g, ok) := r.guard.UseTicket(ticket, CallHash(call), Some(commit));
        r.(guard := g, commits := r.commits[commit := if ok then Spent(ticket, call) else Ended])
    case Executes(commit, reachable) =>
      if commit !in r.commits || !r.commits[commit].Spent? then r
      else
        var ended := r.(commits := r.commits[commit := Ended]);
        if !reachable then ended
        else ended.(executed := r.executed + [Committed(commit, r.commits[commit].ticket, r.commits[commit].call)])
    case GuardActs(act) => r.(guard := Protocol.Elsewhere(r.guard, act))
  }

  /** The stored calls and the guard, updated in place by the two halves. */
  class RemoteCalls {
    var pending: map<string, Call>
    const guard: GuardService

    constructor (guard: GuardService)
      ensures pending == map[] && this.guard == guard
    {
      pending := map[];
      this.guard := guard;
    }

    /** The request half of a `tools/call`. */
    method Request(call: Call, verdict: Verdict, nonce: string) returns (ticket: Option<string>)
      modifies this, guard
      ensures var (g, d) :=
              old(guard.Now()).Evaluate("everyaios", "mcp", "mcp.remote_tools_call", "external_network",
                                        CallHash(call), verdict, nonce);
              && guard.Now() == g
              && (d.Block? ==> ticket.None? && pending == old(pending))
              && (!d.Block? ==> ticket == Some(d.ticket) && pending == old(pending)[d.ticket := call])
    {
      var d :=
        guard.Evaluate("everyaios", "mcp", "mcp.remote_tools_call", "external_network", CallHash(call), verdict, nonce);
      match d
      case Block => return None;
      case Ask(id) =>
        pending := pending[id := call];
        return Some(id);
      case Allow(id) =>
        pending := pending[id := call];
        return Some(id);
    }

    /** The commit half up to the network: the call comes from the store, never from the
        caller, and only after the ticket was spent for it. */
    method Commit(commit: nat, ticket: string) returns (call: Option<Call>)
      modifies this, guard
      ensures pending == old(pending) - {ticket}
      ensures call.Some? ==> ticket in old(pending) && call.value == old(pending)[ticket]
                             && old(guard.Now()).UseTicket(ticket, CallHash(call.value), Some(commit))
                                == (guard.Now(), true)
      ensures call.None? ==> guard.spends == old(guard.spends)
    {
      if ticket !in pending {
        return None;
      }
      var stored := pending[ticket];
      pending := pending - {ticket};
      var ok := guard.UseTicket(ticket, CallHash(stored), Some(commit));
      return if ok then Some(stored) else None;
    }
  }

  // ---------------------------------------------------------------- the invariant

  function Held(phase: Phase): Option<string> {
    match phase
    case Taken(t, _) => Some(t)
    case Spent(t, _) => Some(t)
    case Ended => None
  }

  /** Every ticket of a request carries the fingerprint of its stored call. */
  ghost predicate RequestsTicketed(g: Guard, requested: map<string, Call>) {
    forall id :: id in requested ==> id in g.tickets && g.tickets[id].args == CallHash(requested[id])
  }

  predicate CommitInv(r: Remote, commit: nat)
    requires commit in r.commits
  {
    var phase := r.commits[commit];
    !phase.Ended? ==>
      && phase.ticket in r.requested && r.requested[phase.ticket] == phase.call && phase.call.verb == TOOLS_CALL
      && phase.ticket !in r.pending
      && (phase.Spent? ==> (phase.ticket, Some(commit)) in r.guard.spends)
  }

  /** A call under a ticket is the ticket's stored call and its commit spent the ticket; a call
      without a ticket is no `tools/call`. */
  predicate ExecutedInv(r: Remote, i: nat)
    requires i < |r.executed|
  {
    match r.executed[i]
    case Direct(call) => call.verb != TOOLS_CALL
    case Committed(commit, id, call) =>
      && id in r.requested && r.requested[id] == call && id !in r.pending && (id, Some(commit)) in r.guard.spends
  }

  predicate SameHeld(a: Phase, b: Phase) {
    Held(a).Some? && Held(a) == Held(b)
  }

  /** A ticket is in one place only: stored, held by one commit, or executed once. */
  ghost predicate OnePlace(r: Remote) {
    && (forall a, b :: a in r.commits && b in r.commits && SameHeld(r.commits[a], r.commits[b]) ==> a == b)
    && (forall a, i :: a in r.commits && 0 <= i < |r.executed| && Held(r.commits[a]).Some? ==>
          Held(r.commits[a]) != r.executed[i].Under())
    && (forall i, j :: 0 <= i < j < |r.executed| && r.executed[i].Under().Some? ==>
          r.executed[i].Under() != r.executed[j].Under())
  }

  ghost predicate Inv(r: Remote) {
    && Protocol.Sane(r.guard) && RequestsTicketed(r.guard, r.requested) && OnePlace(r)
    && (forall id :: id in r.pending ==>
        id in r.requested && r.pending[id] == r.requested[id] && r.pending[id].verb == TOOLS_CALL)
    && (forall commit :: commit in r.commits ==> CommitInv(r, commit))
    && (forall i :: 0 <= i < |r.executed| ==> ExecutedInv(r, i))
  }

  /** The guard moved on; calls in hand and calls sent are what they were. */
  lemma GuardMoved(r: Remote, g: Guard)
    requires Inv(r) && Protocol.Sane(g) && Protocol.GuardGrows(r.guard, g)
    ensures Inv(r.(guard := g))
  {
    var t := r.(guard := g);
    forall commit | commit in t.commits ensures CommitInv(t, commit) {
      assert CommitInv(r, commit);
    }
    forall i | 0 <= i < |t.executed| ensures ExecutedInv(t, i) {
      assert ExecutedInv(r, i);
    }
  }

  lemma RequestKeeps(r: Remote, call: Call, verdict: Verdict, nonce: string)
    requires Inv(r) && call.verb == TOOLS_CALL
    ensures Inv(Take(r, Requests(call, true, verdict, nonce)))
  {
    var (g, d) :=
      r.guard.Evaluate("everyaios", "mcp", "mcp.remote_tools_call", "external_network", CallHash(call), verdict, nonce);
    Protocol.EvaluateSane(r.guard, "everyaios", "mcp", "mcp.remote_tools_call", "external_network", CallHash(call),
                          verdict, nonce);
    GuardMoved(r, g);
    if !d.Block? {
      CallStored(r.(guard := g), call, d.ticket);
    }
  }

  /** A call is stored under a ticket that no request had before. */
  lemma CallStored(r: Remote, call: Call, ticket: string)
    requires Inv(r) && call.verb == TOOLS_CALL && ticket !in r.requested
    requires ticket in r.guard.tickets && r.guard.tickets[ticket].args == CallHash(call)
    ensures Inv(r.(pending := r.pending[ticket := call], requested := r.requested[ticket := call]))
  {
    var t := r.(pending := r.pending[ticket := call], requested := r.requested[ticket := call]);
    forall commit | commit in t.commits ensures CommitInv(t, commit) {
      assert CommitInv(r, commit);
    }
    forall i | 0 <= i < |t.executed| ensures ExecutedInv(t, i) {
      assert ExecutedInv(r, i);
    }
  }

  lemma ReadKeeps(r: Remote, call: Call)
    requires Inv(r) && call.verb != TOOLS_CALL
    ensures Inv(r.(executed := r.executed + [Direct(call)]))
  {
    var t := r.(executed := r.executed + [Direct(call)]);
    forall commit | commit in t.commits ensures CommitInv(t, commit) {
      assert CommitInv(r, commit);
    }
    forall i | 0 <= i < |t.executed| ensures ExecutedInv(t, i) {
      assert i < |r.executed| ==> ExecutedInv(r, i);
    }
  }

  /** A stored ticket is in no commit's hands and was not executed. */
  lemma TakeInOnePlace(r: Remote, commit: nat, ticket: string)
    requires Inv(r) && ticket in r.pending && commit !in r.commits
    ensures OnePlace(Take(r, Takes(commit, ticket)))
  {
    forall a | a in r.commits ensures Held(r.commits[a]) != Some(ticket) {
      assert CommitInv(r, a);
    }
    forall i | 0 <= i < |r.executed| ensures r.executed[i].Under() != Some(ticket) {
      assert ExecutedInv(r, i);
    }
  }

  lemma TakeKeeps(r: Remote, commit: nat, ticket: string)
    requires Inv(r)
    ensures Inv(Take(r, Takes(commit, ticket)))
  {
    var t := Take(r, Takes(commit, ticket));
    if commit !in r.commits && ticket in r.pending {
      TakeInOnePlace(r, commit, ticket);
    }
    forall other | other in t.commits ensures CommitInv(t, other) {
      assert other in r.commits ==> CommitInv(r, other);
    }
    forall i | 0 <= i < |t.executed| ensures ExecutedInv(t, i) {
      ExecutedLater(r, t, i);
    }
  }

  lemma SpendKeeps(r: Remote, commit: nat)
    requires Inv(r)
    ensures Inv(Take(r, Spends(commit)))
  {
    if commit in r.commits && r.commits[commit].Taken? {
      var ticket, call := r.commits[commit].ticket, r.commits[commit].call;
      var (g, ok) := r.guard.UseTicket(ticket, CallHash(call), Some(commit));
      Protocol.UseSane(r.guard, ticket, CallHash(call), Some(commit));
      GuardMoved(r, g);
      assert ok ==> g.spends[|r.guard.spends|] == (ticket, Some(commit));
      Rephased(r.(guard := g), commit, if ok then Spent(ticket, call) else Ended);
    }
  }

  /** A commit goes on with the ticket it holds, or lets it go. */
  lemma Rephased(r: Remote, commit: nat, phase: Phase)
    requires Inv(r) && commit in r.commits && r.commits[commit].Taken?
    requires phase.Ended? || (phase == Spent(r.commits[commit].ticket, r.commits[commit].call)
                              && (phase.ticket, Some(commit)) in r.guard.spends)
    ensures Inv(r.(commits := r.commits[commit := phase]))
  {
    var t := r.(commits := r.commits[commit := phase]);
    forall other | other in t.commits ensures CommitInv(t, other) {
      assert CommitInv(r, other);
    }
    forall i | 0 <= i < |t.executed| ensures ExecutedInv(t, i) {
      assert ExecutedInv(r, i);
    }
  }

  lemma ExecutedLater(r: Remote, t: Remote, i: nat)
    requires i < |r.executed| && r.executed <= t.executed && ExecutedInv(r, i)
    requires r.requested == t.requested && r.guard.spends <= t.guard.spends && t.pending.Keys <= r.pending.Keys
    ensures ExecutedInv(t, i)
  {
  }

  lemma ExecuteKeeps(r: Remote, commit: nat, reachable: bool)
    requires Inv(r)
    ensures Inv(Take(r, Executes(commit, reachable)))
  {
    if commit in r.commits && r.commits[commit].Spent? {
      var t := Take(r, Executes(commit, reachable));
      assert CommitInv(r, commit) && Held(r.commits[commit]) == Some(r.commits[commit].ticket);
      forall other | other in t.commits ensures CommitInv(t, other) {
        assert CommitInv(r, other);
      }
      forall i | 0 <= i < |t.executed| ensures ExecutedInv(t, i) {
        if i < |r.executed| {
          ExecutedLater(r, t, i);
        }
      }
    }
  }

  lemma StepKeeps(r: Remote, step: Step)
    requires Inv(r)
    ensures Inv(Take(r, step))
  {
    match step
    case Requests(call, reachable, verdict, nonce) =>
      if reachable && call.verb == TOOLS_CALL {
        RequestKeeps(r, call, verdict, nonce);
      } else if reachable {
        ReadKeeps(r, call);
      }
    case Takes(commit, ticket) => TakeKeeps(r, commit, ticket);
    case Spends(commit) => SpendKeeps(r, commit);
    case Executes(commit, reachable) => ExecuteKeeps(r, commit, reachable);
    case GuardActs(act) =>
      Protocol.ElsewhereSane(r.guard, act);
      GuardMoved(r, Protocol.Elsewhere(r.guard, act));
  }

  // ---------------------------------------------------------------- the result

  const EMPTY := Remote(EMPTY_GUARD, map[], map[], map[], [])

  /** What is sent: a commit whose ticket was spent sends its call, a request of another method
      sends it at once, each exactly if the server is reachable, and nothing else is sent. */
  lemma SendsExactly(r: Remote, step: Step)
    ensures var sent := Take(r, step).executed;
            match step
            case Executes(commit, reachable) =>
              sent == (if reachable && commit in r.commits && r.commits[commit].Spent?
                       then r.executed + [Committed(commit, r.commits[commit].ticket, r.commits[commit].call)]
                       else r.executed)
              && (commit in r.commits && r.commits[commit].Spent? ==>
                  Get(Take(r, step).commits, commit) == Some(Ended))
            case Requests(call, reachable, _, _) =>
              sent == if reachable && call.verb != "tools/call" then r.executed + [Direct(call)] else r.executed
            case _ => sent == r.executed
  {
  }

  lemma InvInitially()
    ensures Inv(EMPTY)
  {
  }

  ghost predicate RemoteTrace(states: seq<Remote>, steps: seq<Step>) {
    && |states| == |steps| + 1 && states[0] == EMPTY
    && forall i :: 0 <= i < |steps| ==> states[i + 1] == Take(states[i], steps[i])
  }

  lemma {:induction false} InvAlong(states: seq<Remote>, steps: seq<Step>, n: nat)
    requires RemoteTrace(states, steps) && n <= |steps|
    ensures Inv(states[n])
  {
    if n == 0 {
      InvInitially();
    } else {
      InvAlong(states, steps, n - 1);
      StepKeeps(states[n - 1], steps[n - 1]);
      assert states[n - 1 + 1] == Take(states[n - 1], steps[n - 1]);
    }
  }

  /** Under every interleaving of requests, commits and anything else that uses the guard: a
      `tools/call` that reaches a server is the call its request stored, under a ticket with
      that call's fingerprint that policy granted or a human approved and that was spent exactly
      once, by the commit that sent the call; and no other call is sent under that ticket. */
  lemma ExecutedAsRequested(states: seq<Remote>, steps: seq<Step>, i: nat)
    requires RemoteTrace(states, steps)
    requires i < |states[|steps|].executed| && states[|steps|].executed[i].call.verb == TOOLS_CALL
    ensures var r := states[|steps|]; var sent := r.executed[i];
            && sent.Committed? && sent.ticket in r.requested && r.requested[sent.ticket] == sent.call
            && sent.ticket in r.guard.tickets && r.guard.tickets[sent.ticket].args == CallHash(sent.call)
            && Protocol.Cleared(r.guard, sent.ticket) && Protocol.SpendCount(r.guard.spends, sent.ticket) == 1
            && (sent.ticket, Some(sent.commit)) in r.guard.spends
            && forall j :: 0 <= j < |r.executed| && j != i ==> r.executed[j].Under() != Some(sent.ticket)
  {
    InvAlong(states, steps, |steps|);
    var r := states[|steps|];
    assert ExecutedInv(r, i);
    var ticket, commit := r.executed[i].ticket, r.executed[i].commit;
    var k :| 0 <= k < |r.guard.spends| && r.guard.spends[k] == (ticket, Some(commit));
    assert r.guard.spends[k].0 == ticket;
    Protocol.CountOfDistinct(r.guard.spends, ticket);
  }
}
