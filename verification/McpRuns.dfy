/** Whole runs of the MCP commands: which children can be alive, and whose command they run. */
module McpRuns {
  import opened Basics
  import opened GuardModel
  import opened McpLifecycle
  import opened PermissionProtocol

  // ---------------------------------------------------------------- what an attach ticket covers

  datatype Attach = Attach(name: string, command: string, args: seq<string>)

  const SEPARATOR: char := '\U{1F}'

  function Join(args: seq<string>): string {
    if |args| == 0 then "" else if |args| == 1 then args[0] else args[0] + [SEPARATOR] + Join(args[1..])
  }

  predicate Plain(args: seq<string>) {
    forall i :: 0 <= i < |args| ==> SEPARATOR !in args[i]
  }

  function AttachHash(a: Attach): Hash {
    OfParts(["mcp.attach", a.name, a.command, Join(a.args)])
  }

  lemma {:induction false} JoinHead(args: seq<string>)
    requires |args| >= 1 && Plain(args)
    ensures |args| == 1 ==> SEPARATOR !in Join(args)
    ensures |args| > 1 ==> |args[0]| < |Join(args)| && Join(args)[|args[0]|] == SEPARATOR
                           && (forall i :: 0 <= i < |args[0]| ==> Join(args)[i] != SEPARATOR)
                           && Join(args)[|args[0]| + 1..] == Join(args[1..]) && Join(args)[..|args[0]|] == args[0]
  {
    if |args| > 1 {
      assert forall i :: 0 <= i < |args[0]| ==> Join(args)[i] == args[0][i] && args[0][i] in args[0];
    }
  }

  lemma {:induction false} JoinInjective(a: seq<string>, b: seq<string>)
    requires |a| >= 1 && |b| >= 1 && Plain(a) && Plain(b) && Join(a) == Join(b)
    ensures a == b
    decreases |a|
  {
    JoinHead(a);
    JoinHead(b);
    if |a| > 1 && |b| > 1 {
      assert |a[0]| == |b[0]|;
      assert a[0] == b[0];
      assert Plain(a[1..]) && Plain(b[1..]);
      JoinInjective(a[1..], b[1..]);
      assert a == [a[0]] + a[1..] && b == [b[0]] + b[1..];
    }
  }

  /** The exact reach of an attach ticket: for arguments free of the separator it covers one
      name, one command and one argument list, except that no arguments and one empty
      argument look alike. */
  lemma TicketCovers(a: Attach, b: Attach)
    requires Plain(a.args) && Plain(b.args)
    ensures AttachHash(a) == AttachHash(b) <==>
            a.name == b.name && a.command == b.command
            && (a.args == b.args || {a.args, b.args} == {[], [""]})
  {
    if AttachHash(a) == AttachHash(b) {
      var x, y := AttachHash(a).parts, AttachHash(b).parts;
      assert x[1] == y[1] && x[2] == y[2] && x[3] == y[3];
      if |a.args| >= 1 && |b.args| >= 1 {
        JoinInjective(a.args, b.args);
      } else if |a.args| == 0 && |b.args| >= 1 {
        JoinHead(b.args);
        assert b.args == [""];
      } else if |b.args| == 0 && |a.args| >= 1 {
        JoinHead(a.args);
        assert a.args == [""];
      }
    } else if a.name == b.name && a.command == b.command && {a.args, b.args} == {[], [""]} {
      EmptyLooksAlike(a.args, b.args);
    }
  }

  lemma EmptyLooksAlike(x: seq<string>, y: seq<string>)
    requires {x, y} == {[], [""]}
    ensures Join(x) == Join(y)
  {
    assert x in {x, y} && y in {x, y};
  }

  /** A name the registry accepts: trimmed, 1 to 64 letters, digits, `-`, `_` or `.`. */
  function SanitizeName(name: string): Option<string> {
    var trimmed := Trim(name);
    if 1 <= |trimmed| <= 64 && forall i :: 0 <= i < |trimmed| ==> SlugChar(trimmed[i]) then Some(trimmed) else None
  }

  predicate SlugChar(c: char) {
    'a' <= c <= 'z' || 'A' <= c <= 'Z' || '0' <= c <= '9' || c == '-' || c == '_' || c == '.'
  }

  /** Exactly these names come through, trimmed, and a name that came through does so again. */
  lemma SanitizeExactly(name: string)
    ensures SanitizeName(name).Some? <==>
            var t := Trim(name);
            t != "" && |t| <= 64
            && forall i :: 0 <= i < |t| ==>
                 t[i] in "-_." || '0' <= t[i] <= '9' || 'A' <= t[i] <= 'Z' || 'a' <= t[i] <= 'z'
    ensures SanitizeName(name).Some? ==>
              SanitizeName(name).value == Trim(name)
              && SanitizeName(SanitizeName(name).value) == SanitizeName(name)
  {
    var t := Trim(name);
    var m, n := TrimExactly(t);
    if SanitizeName(name).Some? {
      assert SlugChar(t[0]) && SlugChar(t[|t| - 1]);
      assert m == 0 && n == |t|;
    }
  }

  // ---------------------------------------------------------------- commands

  /** A committed attach, and the ticket it spent. Tickets live as long as the app, so a ticket
      is named together with the number of restarts before it. */
  datatype Deed = Deed(era: nat, ticket: string, attach: Attach)

  /** `past` holds the guards of the app's earlier lives, `asked` which attach each ticket was
      minted for, `done` which attaches were committed. */
  datatype Mcp = Mcp(registry: Registry, guard: Guard, past: seq<Guard>, asked: map<(nat, string), Attach>,
                     done: set<Deed>)
  {
    function GuardOf(era: nat): Guard
      requires era <= |past|
    {
      if era < |past| then past[era] else guard
    }
  }

  datatype Command =
    | AttachRequest(attach: Attach, verdict: Verdict, nonce: string)
    | AttachCommit(attach: Attach, ticket: string, up: bool)
    | Start(name: string, up: bool)
    | Stop(name: string)
    | Detach(name: string)
    | SetAutoStart(name: string, autoStart: bool)
    | Refresh(dead: set<string>, order: seq<string>, alive: set<string>)
    | ToolCall(name: string, up: bool)
    | Restart
    | GuardActs(step: Step)

  function Perform(m: Mcp, c: Command): Mcp {
    match c
    case AttachRequest(a, verdict, nonce) =>
      (match SanitizeName(a.name)
       case None => m
       case Some(name) => Requested(m, a.(name := name), verdict, nonce))
    case AttachCommit(a, ticket, up) =>
      (match SanitizeName(a.name)
       case None => m
       case Some(name) => Attached(m, a.(name := name), ticket, up))
    case Start(name, up) => m.(registry := m.registry.BringUp(name, true, up).0)
    case Stop(name) => m.(registry := m.registry.Stop(name))
    case Detach(name) => m.(registry := m.registry.Detach(name))
    case SetAutoStart(name, autoStart) => m.(registry := m.registry.SetAutoStart(name, autoStart))
    case Refresh(dead, order, alive) => m.(registry := m.registry.Prune(dead).BringUpAll(order, alive))
    case ToolCall(name, up) => m.(registry := m.registry.LazyCall(name, up).0)
    case Restart => m.(registry := m.registry.Restarted(), past := m.past + [m.guard], guard := EMPTY_GUARD)
    case GuardActs(step) => m.(guard := Elsewhere(m.guard, step))
  }

  function Requested(m: Mcp, a: Attach, verdict: Verdict, nonce: string): Mcp {
    var (g, d) :=
      m.guard.Evaluate("everyaios", "mcp", "mcp.attach_server", "terminal_shell", AttachHash(a), verdict, nonce);
    if d.Block? then m.(guard := g) else m.(guard := g, asked := m.asked[(|m.past|, d.ticket) := a])
  }

  function Attached(m: Mcp, a: Attach, ticket: string, up: bool): Mcp {
    var (g, ok) := m.guard.UseTicket(ticket, AttachHash(a), None);
    if !ok || !up then m.(guard := g)
    else
      m.(guard := g, registry := m.registry.Attached(a.name, a.command, a.args),
         done := m.done + {Deed(|m.past|, ticket, a)})
  }

  /** An attach is recorded exactly if its ticket could be spent for it and its child answered.
      A ticket of an earlier life of the app never can, nor one of an attach by another name. */
  lemma AttachedExactly(m: Mcp, a: Attach, ticket: string, up: bool)
    ensures var n := Attached(m, a, ticket, up); var ok := up && Spendable(m.guard, ticket, AttachHash(a));
            && n.done == (if ok then m.done + {Deed(|m.past|, ticket, a)} else m.done)
            && n.registry == (if ok then m.registry.Attached(a.name, a.command, a.args) else m.registry)
            && n.guard.spends == (if Spendable(m.guard, ticket, AttachHash(a)) then m.guard.spends + [(ticket, None)]
                                  else m.guard.spends)
    ensures var later := Perform(m, Restart); var n := Attached(later, a, ticket, up);
            n.done == m.done && n.registry == later.registry && n.guard == later.guard
  {
    UseExactly(m.guard, ticket, AttachHash(a), None);
  }

  /** Nobody else asks the guard for a ticket with an attach fingerprint. */
  predicate Legal(c: Command) {
    c.GuardActs? && c.step.OtherEvaluates? ==> !AttachArgs(c.step.args)
  }

  predicate AttachArgs(args: Hash) {
    args.OfParts? && |args.parts| > 0 && args.parts[0] == "mcp.attach"
  }

  // ---------------------------------------------------------------- the invariant

  /** Live children are rows, not stopped, and run the row's command. */
  ghost predicate LiveAreRows(r: Registry) {
    forall name :: name in r.live ==> name in r.rows && !r.rows[name].stopped
                                      && r.live[name] == Child(r.rows[name].command, r.rows[name].args)
  }

  predicate Committed(done: set<Deed>, name: string, row: Row) {
    exists d :: d in done && d.attach == Attach(name, row.command, row.args)
  }

  ghost predicate RowsCommitted(rows: map<string, Row>, done: set<Deed>) {
    forall name :: name in rows ==> Committed(done, name, rows[name])
  }

  ghost predicate RegistryInv(r: Registry, done: set<Deed>) {
    LiveAreRows(r) && RowsCommitted(r.rows, done) && RowsCommitted(r.file, done)
  }

  /** The deed's ticket was minted for an attach with its fingerprint, and spent. */
  predicate Backed(m: Mcp, d: Deed) {
    && d.era <= |m.past| && (d.era, d.ticket) in m.asked
       && AttachHash(m.asked[(d.era, d.ticket)]) == AttachHash(d.attach)
    && (d.ticket, None) in m.GuardOf(d.era).spends
  }

  ghost predicate Deeds(m: Mcp) {
    && (forall d :: d in m.done ==> Backed(m, d))
    && (forall d, e :: d in m.done && e in m.done && SameTicket(d, e) ==> d == e)
  }

  predicate SameTicket(d: Deed, e: Deed) {
    d.era == e.era && d.ticket == e.ticket
  }

  ghost predicate GuardsSane(m: Mcp) {
    forall era: nat :: era <= |m.past| ==> Sane(m.GuardOf(era))
  }

  /** Tickets keep the fingerprint they were asked for, and every attach ticket was asked for. */
  ghost predicate AskedFor(m: Mcp) {
    && (forall key :: key in m.asked ==> key.0 <= |m.past| && key.1 in m.GuardOf(key.0).tickets
                                         && m.GuardOf(key.0).tickets[key.1].args == AttachHash(m.asked[key]))
    && (forall id :: id in m.guard.tickets && AttachArgs(m.guard.tickets[id].args) ==> (|m.past|, id) in m.asked)
  }

  ghost predicate Inv(m: Mcp) {
    RegistryInv(m.registry, m.done) && Deeds(m) && GuardsSane(m) && AskedFor(m)
  }

  /** An app that starts with an empty registry file. */
  lemma InvInitially(saved: nat -> bool)
    ensures Inv(Mcp(Registry(map[], map[], map[], 0, saved), EMPTY_GUARD, [], map[], {}))
  {
  }

  lemma CommittedMore(done: set<Deed>, more: set<Deed>, rows: map<string, Row>)
    requires RowsCommitted(rows, done) && done <= more
    ensures RowsCommitted(rows, more)
  {
    forall name | name in rows ensures Committed(more, name, rows[name]) {
      var d :| d in done && d.attach == Attach(name, rows[name].command, rows[name].args);
      assert d in more;
    }
  }

  lemma AttachedKeeps(r: Registry, done: set<Deed>, name: string, command: string, args: seq<string>, d: Deed)
    requires RegistryInv(r, done) && d.attach == Attach(name, command, args)
    ensures RegistryInv(r.Attached(name, command, args), done + {d})
  {
    var more := done + {d};
    CommittedMore(done, more, r.rows);
    CommittedMore(done, more, r.file);
    assert d in more;
    assert Committed(more, name, Row(command, args, true, false, true));
  }

  lemma BringUpKeeps(r: Registry, done: set<Deed>, name: string, explicit: bool, up: bool)
    requires RegistryInv(r, done)
    ensures RegistryInv(r.BringUp(name, explicit, up).0, done)
  {
    var t := r.BringUp(name, explicit, up).0;
    forall other | other in t.rows ensures Committed(done, other, t.rows[other]) {
      assert Committed(done, other, r.rows[other]);
    }
  }

  lemma {:induction false} BringUpAllKeeps(r: Registry, done: set<Deed>, names: seq<string>, up: set<string>)
    requires RegistryInv(r, done)
    ensures RegistryInv(r.BringUpAll(names, up), done)
    decreases |names|
  {
    if names != [] {
      var n := |names| - 1;
      BringUpAllKeeps(r, done, names[..n], up);
      BringUpKeeps(r.BringUpAll(names[..n], up), done, names[n], false, names[n] in up);
    }
  }

  /** Rows that only lost entries or changed flags. */
  lemma FlagsKeepCommitted(rows: map<string, Row>, later: map<string, Row>, done: set<Deed>)
    requires RowsCommitted(rows, done)
    requires forall name :: name in later ==>
             name in rows && later[name].command == rows[name].command && later[name].args == rows[name].args
    ensures RowsCommitted(later, done)
  {
    forall name | name in later ensures Committed(done, name, later[name]) {
      assert Committed(done, name, rows[name]);
    }
  }

  lemma StopKeeps(r: Registry, done: set<Deed>, name: string)
    requires RegistryInv(r, done)
    ensures RegistryInv(r.Stop(name), done)
  {
    FlagsKeepCommitted(r.rows, r.Stop(name).rows, done);
  }

  lemma DetachKeeps(r: Registry, done: set<Deed>, name: string)
    requires RegistryInv(r, done)
    ensures RegistryInv(r.Detach(name), done)
  {
    FlagsKeepCommitted(r.rows, r.Detach(name).rows, done);
  }

  lemma SetAutoStartKeeps(r: Registry, done: set<Deed>, name: string, autoStart: bool)
    requires RegistryInv(r, done)
    ensures RegistryInv(r.SetAutoStart(name, autoStart), done)
  {
    FlagsKeepCommitted(r.rows, r.SetAutoStart(name, autoStart).rows, done);
  }

  lemma RestartKeeps(r: Registry, done: set<Deed>)
    requires RegistryInv(r, done)
    ensures RegistryInv(r.Restarted(), done)
  {
    var t := r.Restarted();
    forall name | name in t.rows ensures Committed(done, name, t.rows[name]) {
      assert Committed(done, name, r.file[name]);
    }
  }

  /** The guard moved on; nothing was asked or done. */
  lemma GuardMoved(m: Mcp, g: Guard)
    requires Inv(m) && Sane(g) && GuardGrows(m.guard, g)
    requires forall id :: id in g.tickets && id !in m.guard.tickets ==> !AttachArgs(g.tickets[id].args)
    ensures Inv(m.(guard := g))
  {
    var t := m.(guard := g);
    forall d | d in t.done ensures Backed(t, d) {
      assert Backed(m, d);
    }
    forall era: nat | era <= |t.past| ensures Sane(t.GuardOf(era)) {
      assert Sane(m.GuardOf(era));
    }
  }

  lemma RequestKeeps(m: Mcp, a: Attach, verdict: Verdict, nonce: string)
    requires Inv(m)
    ensures Inv(Requested(m, a, verdict, nonce))
  {
    var (g, d) :=
      m.guard.Evaluate("everyaios", "mcp", "mcp.attach_server", "terminal_shell", AttachHash(a), verdict, nonce);
    assert Sane(m.GuardOf(|m.past|));
    EvaluateSane(m.guard, "everyaios", "mcp", "mcp.attach_server", "terminal_shell", AttachHash(a), verdict, nonce);
    if d.Block? {
      GuardMoved(m, g);
    } else {
      assert g.tickets.Keys == m.guard.tickets.Keys + {d.ticket};
      TicketAsked(m, g, a, d.ticket);
    }
  }

  /** A ticket was minted for an attach. */
  lemma TicketAsked(m: Mcp, g: Guard, a: Attach, ticket: string)
    requires Inv(m) && Sane(g) && GuardGrows(m.guard, g)
    requires ticket !in m.guard.tickets && g.tickets.Keys == m.guard.tickets.Keys + {ticket}
    requires g.tickets[ticket].args == AttachHash(a)
    ensures Inv(m.(guard := g, asked := m.asked[(|m.past|, ticket) := a]))
  {
    var t := m.(guard := g, asked := m.asked[(|m.past|, ticket) := a]);
    DeedsAsked(m, t, ticket);
    forall era: nat | era <= |t.past| ensures Sane(t.GuardOf(era)) {
      assert Sane(m.GuardOf(era));
    }
    AskedMore(m, g, a, ticket);
  }

  lemma DeedsAsked(m: Mcp, t: Mcp, ticket: string)
    requires Deeds(m) && AskedFor(m) && GuardGrows(m.guard, t.guard) && ticket !in m.guard.tickets
    requires t == m.(guard := t.guard, asked := t.asked)
    requires forall key :: key in m.asked && key != (|m.past|, ticket) ==> Get(t.asked, key) == Some(m.asked[key])
    ensures Deeds(t)
  {
    assert (|m.past|, ticket) !in m.asked;
    forall e | e in t.done ensures Backed(t, e) {
      assert Backed(m, e);
    }
  }

  lemma AskedMore(m: Mcp, g: Guard, a: Attach, ticket: string)
    requires AskedFor(m) && GuardGrows(m.guard, g)
    requires ticket !in m.guard.tickets && g.tickets.Keys == m.guard.tickets.Keys + {ticket}
    requires g.tickets[ticket].args == AttachHash(a)
    ensures AskedFor(m.(guard := g, asked := m.asked[(|m.past|, ticket) := a]))
  {
  }

  lemma CommitKeeps(m: Mcp, a: Attach, ticket: string, up: bool)
    requires Inv(m)
    ensures Inv(Attached(m, a, ticket, up))
  {
    var (g, ok) := m.guard.UseTicket(ticket, AttachHash(a), None);
    assert Sane(m.GuardOf(|m.past|));
    UseSane(m.guard, ticket, AttachHash(a), None);
    GuardMoved(m, g);
    if ok && up {
      SpentTicket(m.guard, g, ticket, a);
      var d := Deed(|m.past|, ticket, a);
      NewDeed(m, m.(guard := g), d);
      AttachedKeeps(m.registry, m.done, a.name, a.command, a.args, d);
      DeedKeeps(m.(guard := g), m.registry.Attached(a.name, a.command, a.args), d);
    }
  }

  /** A ticket that could be spent was not spent before; it had this fingerprint. */
  lemma SpentTicket(g: Guard, h: Guard, ticket: string, a: Attach)
    requires Sane(g) && (h, true) == g.UseTicket(ticket, AttachHash(a), None)
    ensures ticket in g.tickets && g.tickets[ticket].args == AttachHash(a)
    ensures forall user :: (ticket, user) !in g.spends
    ensures (ticket, None) in h.spends
  {
    assert h.spends[|g.spends|] == (ticket, None);
  }

  /** The new deed is backed, by a ticket of its own. */
  lemma NewDeed(m: Mcp, t: Mcp, d: Deed)
    requires Inv(m) && t == m.(guard := t.guard) && d.era == |m.past|
    requires d.ticket in m.guard.tickets && m.guard.tickets[d.ticket].args == AttachHash(d.attach)
    requires (d.ticket, None) !in m.guard.spends && (d.ticket, None) in t.guard.spends
    ensures Backed(t, d) && forall e :: e in t.done ==> !SameTicket(d, e)
  {
    assert AttachArgs(m.guard.tickets[d.ticket].args) && (d.era, d.ticket) in m.asked;
    forall e | e in t.done ensures !SameTicket(d, e) {
      assert Backed(m, e);
    }
  }

  lemma DeedKeeps(t: Mcp, r: Registry, d: Deed)
    requires Inv(t) && Backed(t, d) && forall e :: e in t.done ==> !SameTicket(d, e)
    requires RegistryInv(r, t.done + {d})
    ensures Inv(t.(registry := r, done := t.done + {d}))
  {
    var u := t.(registry := r, done := t.done + {d});
    DeedsMore(t, u, d);
    forall era: nat | era <= |u.past| ensures Sane(u.GuardOf(era)) {
      assert Sane(t.GuardOf(era));
    }
  }

  lemma DeedsMore(t: Mcp, u: Mcp, d: Deed)
    requires Deeds(t) && u == t.(registry := u.registry, done := t.done + {d}) && Backed(t, d)
    requires forall e :: e in t.done ==> !SameTicket(d, e)
    ensures Deeds(u)
  {
    forall e | e in u.done ensures Backed(u, e) {
      assert Backed(t, e);
    }
  }

  lemma RestartGuardKeeps(m: Mcp)
    requires Inv(m)
    ensures Inv(Perform(m, Restart))
  {
    var t := Perform(m, Restart);
    RestartKeeps(m.registry, m.done);
    forall era: nat | era <= |t.past|
      ensures Sane(t.GuardOf(era)) && (era <= |m.past| ==> t.GuardOf(era) == m.GuardOf(era))
    {
      assert era <= |m.past| ==> Sane(m.GuardOf(era));
    }
    forall d | d in t.done ensures Backed(t, d) {
      assert Backed(m, d);
    }
  }

  lemma GuardActsKeeps(m: Mcp, step: Step)
    requires Inv(m) && Legal(GuardActs(step))
    ensures Inv(Perform(m, GuardActs(step)))
  {
    assert Sane(m.GuardOf(|m.past|));
    ElsewhereSane(m.guard, step);
    GuardMoved(m, Elsewhere(m.guard, step));
  }

  lemma RegistryMoved(m: Mcp, r: Registry)
    requires Inv(m) && RegistryInv(r, m.done)
    ensures Inv(m.(registry := r))
  {
    var t := m.(registry := r);
    forall d | d in t.done ensures Backed(t, d) {
      assert Backed(m, d);
    }
    forall era: nat | era <= |t.past| ensures Sane(t.GuardOf(era)) {
      assert Sane(m.GuardOf(era));
    }
  }

  lemma PerformKeeps(m: Mcp, c: Command)
    requires Inv(m) && Legal(c)
    ensures Inv(Perform(m, c))
  {
    match c
    case AttachRequest(a, verdict, nonce) =>
      if SanitizeName(a.name).Some? {
        RequestKeeps(m, a.(name := SanitizeName(a.name).value), verdict, nonce);
      }
    case AttachCommit(a, ticket, up) =>
      if SanitizeName(a.name).Some? {
        CommitKeeps(m, a.(name := SanitizeName(a.name).value), ticket, up);
      }
    case Restart => RestartGuardKeeps(m);
    case GuardActs(step) => GuardActsKeeps(m, step);
    case _ => RegistryCommandKeeps(m, c);
  }

  lemma RegistryCommandKeeps(m: Mcp, c: Command)
    requires Inv(m) && !c.AttachRequest? && !c.AttachCommit? && !c.Restart? && !c.GuardActs?
    ensures Inv(Perform(m, c))
  {
    RegistryKeeps(m, c);
    RegistryMoved(m, Perform(m, c).registry);
  }

  lemma RegistryKeeps(m: Mcp, c: Command)
    requires RegistryInv(m.registry, m.done) && !c.AttachRequest? && !c.AttachCommit? && !c.Restart? && !c.GuardActs?
    ensures RegistryInv(Perform(m, c).registry, m.done) && Perform(m, c) == m.(registry := Perform(m, c).registry)
  {
    match c
    case Start(name, up) => BringUpKeeps(m.registry, m.done, name, true, up);
    case Stop(name) => StopKeeps(m.registry, m.done, name);
    case Detach(name) => DetachKeeps(m.registry, m.done, name);
    case SetAutoStart(name, autoStart) => SetAutoStartKeeps(m.registry, m.done, name, autoStart);
    case Refresh(dead, order, alive) => BringUpAllKeeps(m.registry.Prune(dead), m.done, order, alive);
    case ToolCall(_, _) =>
  }

  // ---------------------------------------------------------------- whole runs

  ghost predicate McpTrace(states: seq<Mcp>, commands: seq<Command>) {
    && |states| == |commands| + 1 && Inv(states[0])
    && forall i :: 0 <= i < |commands| ==> Legal(commands[i]) && states[i + 1] == Perform(states[i], commands[i])
  }

  lemma {:induction false} InvAlong(states: seq<Mcp>, commands: seq<Command>, n: nat)
    requires McpTrace(states, commands) && n <= |commands|
    ensures Inv(states[n])
  {
    if n > 0 {
      InvAlong(states, commands, n - 1);
      PerformKeeps(states[n - 1], commands[n - 1]);
      assert states[n - 1 + 1] == Perform(states[n - 1], commands[n - 1]);
    }
  }

  /** Every child that is alive, however it was started, runs the command of an attach that
      was approved: some ticket was minted for an attach of this name and command (and these
      arguments, as far as a ticket tells), granted by policy or approved by a human, spent
      exactly once, for this very attach, and no other attach was committed with it. */
  lemma ChildrenAreApproved(states: seq<Mcp>, commands: seq<Command>, n: nat, name: string) returns (d: Deed)
    requires McpTrace(states, commands) && n <= |commands| && name in states[n].registry.live
    ensures var m := states[n]; var child := m.registry.live[name];
            && d in m.done && d.attach == Attach(name, child.command, child.args)
            && d.era <= |m.past| && (d.era, d.ticket) in m.asked && Approved(m.asked[(d.era, d.ticket)], name, child)
            && var g := m.GuardOf(d.era);
            && d.ticket in g.tickets && g.tickets[d.ticket].args == AttachHash(d.attach)
            && Cleared(g, d.ticket) && SpendCount(g.spends, d.ticket) == 1
            && (forall e :: e in m.done && SameTicket(d, e) ==> e == d)
  {
    InvAlong(states, commands, n);
    var m := states[n];
    var child := m.registry.live[name];
    assert Committed(m.done, name, m.registry.rows[name]);
    d :| d in m.done && d.attach == Attach(name, child.command, child.args);
    assert Backed(m, d);
    SpentOnceFor(m, d);
    var a := m.asked[(d.era, d.ticket)];
    assert AttachHash(a).parts[1] == AttachHash(d.attach).parts[1];
    assert AttachHash(a).parts[2] == AttachHash(d.attach).parts[2];
    if Plain(a.args) && Plain(child.args) {
      TicketCovers(a, d.attach);
    }
  }

  lemma SpentOnceFor(m: Mcp, d: Deed)
    requires Inv(m) && d in m.done && d.era <= |m.past|
    ensures var g := m.GuardOf(d.era); Cleared(g, d.ticket) && SpendCount(g.spends, d.ticket) == 1
  {
    var g := m.GuardOf(d.era);
    assert Backed(m, d) && Sane(g);
    CountOfDistinct(g.spends, d.ticket);
    var i :| 0 <= i < |g.spends| && g.spends[i] == (d.ticket, None);
    assert g.spends[i].0 == d.ticket;
  }

  /** The attach a ticket was minted for is the one the child runs. */
  predicate Approved(a: Attach, name: string, child: Child) {
    && a.name == name && a.command == child.command
    && (Plain(a.args) && Plain(child.args) ==> a.args == child.args || {a.args, child.args} == {[], [""]})
  }

  // ---------------------------------------------------------------- stopped stays stopped

  /** Neither now nor after a restart is there anything that would start the server lazily. */
  predicate Down(r: Registry, name: string) {
    && name !in r.live
    && (name in r.rows ==> r.rows[name].stopped) && (name in r.file ==> r.file[name].stopped)
  }

  /** The two commands that may start a stopped server. */
  predicate Starts(c: Command, name: string) {
    (c.Start? && c.name == name) || (c.AttachCommit? && SanitizeName(c.attach.name) == Some(name))
  }

  lemma {:induction false} BringUpAllLeavesDown(r: Registry, names: seq<string>, up: set<string>, name: string)
    requires Down(r, name)
    ensures Down(r.BringUpAll(names, up), name)
    decreases |names|
  {
    if names != [] {
      BringUpAllLeavesDown(r, names[..|names| - 1], up, name);
    }
  }

  lemma LeavesDown(m: Mcp, c: Command, name: string)
    requires Down(m.registry, name) && !Starts(c, name)
    ensures Down(Perform(m, c).registry, name)
  {
    match c
    case AttachRequest(_, _, _) =>
    case AttachCommit(_, _, _) =>
    case Start(_, _) =>
    case Stop(_) =>
    case Detach(_) =>
    case SetAutoStart(_, _) =>
    case Refresh(dead, order, alive) => BringUpAllLeavesDown(m.registry.Prune(dead), order, alive, name);
    case ToolCall(_, _) =>
    case Restart =>
    case GuardActs(_) =>
  }

  /** A stop whose registry file was written lasts: no refresh, tool call, auto-start edit or
      restart brings the child back, until an explicit start or a new attach of that name. */
  lemma {:induction false} StoppedStaysStopped(states: seq<Mcp>, commands: seq<Command>, i: nat, n: nat, name: string)
    requires McpTrace(states, commands) && i < n <= |commands|
    requires commands[i] == Stop(name) && name != NATIVE && states[i].registry.saved(states[i].registry.saves)
    requires name in states[i].registry.rows
    requires forall j :: i < j < n ==> !Starts(commands[j], name)
    ensures Down(states[n].registry, name)
    decreases n
  {
    assert states[n - 1 + 1] == Perform(states[n - 1], commands[n - 1]);
    if n > i + 1 {
      StoppedStaysStopped(states, commands, i, n - 1, name);
      LeavesDown(states[n - 1], commands[n - 1], name);
    }
  }

  /** When the write of a stop fails, the stop does not survive a restart: if the file's row
      may be started lazily, the next refresh starts the server. */
  lemma LostStop(r: Registry, name: string)
    requires name in r.rows && name in r.file && name != NATIVE && LazyStartAllowed(r.file[name])
    ensures r.saved(r.saves) <==> name !in r.Stop(name).Restarted().BringUpAll([name], {name}).live
  {
    var s := r.Stop(name).Restarted();
    assert [name][..0] == [];
    assert s.BringUpAll([name][..0], {name}) == s;
  }

  // ---------------------------------------------------------------- auto-start off stays off

  /** The server has no child, and its row and the file's say not to start it by itself. */
  predicate Idle(r: Registry, name: string) {
    && name !in r.live
    && (name in r.rows ==> !r.rows[name].autoStart) && (name in r.file ==> !r.file[name].autoStart)
  }

  /** The three commands that may end that. */
  predicate Wakes(c: Command, name: string) {
    Starts(c, name) || (c.SetAutoStart? && c.name == name && c.autoStart)
  }

  lemma {:induction false} BringUpAllLeavesIdle(r: Registry, names: seq<string>, up: set<string>, name: string)
    requires Idle(r, name)
    ensures Idle(r.BringUpAll(names, up), name)
    decreases |names|
  {
    if names != [] {
      BringUpAllLeavesIdle(r, names[..|names| - 1], up, name);
    }
  }

  lemma LeavesIdle(m: Mcp, c: Command, name: string)
    requires Idle(m.registry, name) && !Wakes(c, name)
    ensures Idle(Perform(m, c).registry, name)
  {
    match c
    case AttachRequest(_, _, _) =>
    case AttachCommit(_, _, _) =>
    case Start(_, _) =>
    case Stop(_) =>
    case Detach(_) =>
    case SetAutoStart(_, _) =>
    case Refresh(dead, order, alive) => BringUpAllLeavesIdle(m.registry.Prune(dead), order, alive, name);
    case ToolCall(_, _) =>
    case Restart =>
    case GuardActs(_) =>
  }

  /** Turning auto-start off keeps a server that is down from starting by itself, over refreshes,
      tool calls, stops and restarts, until it is started, attached or set to auto-start again. */
  lemma {:induction false} AutoStartOffStaysOff(states: seq<Mcp>, commands: seq<Command>, i: nat, n: nat, name: string)
    requires McpTrace(states, commands) && i < n <= |commands|
    requires commands[i] == SetAutoStart(name, false) && states[i].registry.saved(states[i].registry.saves)
    requires name in states[i].registry.rows && name !in states[i].registry.live
    requires forall j :: i < j < n ==> !Wakes(commands[j], name)
    ensures Idle(states[n].registry, name)
    decreases n
  {
    assert states[n - 1 + 1] == Perform(states[n - 1], commands[n - 1]);
    if n > i + 1 {
      AutoStartOffStaysOff(states, commands, i, n - 1, name);
      LeavesIdle(states[n - 1], commands[n - 1], name);
    }
  }
}
