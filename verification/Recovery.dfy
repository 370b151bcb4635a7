/** Restart: what the journal gives back. The gateway is rebuilt row by row and the result
    is checked as a whole; a journal that makes no sense is refused. */
module Recovery {
  import opened Basics
  import opened Lifecycle
  import opened WorkGatewayModel

  // ---------------------------------------------------------------- replay

  /** The projections a replay rebuilds; `runs` holds every (Work, Run) pair some row names,
      `active` the binding of each Work that was last activated and not suspended since. */
  datatype Projection = Projection(
    works: map<string, WorkAddress>,
    presence: map<string, State>,
    currentRun: map<string, string>,
    runStates: map<(string, string), State>,
    runFields: map<(string, string), map<string, string>>,
    runs: set<(string, string)>,
    bindings: map<string, AgentBinding>,
    active: map<string, string>)

  function ApplyRow(p: Projection, row: Entry): Option<Projection> {
    var w := row.work;
    if row.event.WorkCreated? then
      if w in p.works || (row.event.kind.Automation? && row.event.session.None?) then None
      else Some(p.(works := p.works[w := WorkAddress(row.event.session, row.event.kind, None)],
                   presence := p.presence[w := Created]))
    else if w !in p.works then None
    else
      match row.event
      case ProvenanceStamped(stamp, _) =>
        if !stamp.Complete() || (p.works[w].provenance.Some? && p.works[w].provenance.value != stamp) then None
        else Some(p.(works := p.works[w := p.works[w].(provenance := Some(stamp))]))
      case RunBound(run) =>
        var (merged, agrees) := Merge(Described(p.runFields, (w, run)), row.fields);
        if !agrees then None
        else
          Some(p.(currentRun := p.currentRun[w := run], runs := p.runs + {(w, run)},
                  runFields := p.runFields[(w, run) := merged]))
      case RunMoved(run, to) =>
        if (w, run) in p.runStates && !GatewayMay(p.runStates[(w, run)], to) then None
        else if (w, run) !in p.runStates && to.Terminal() then None
        else Some(p.(currentRun := p.currentRun[w := run], runs := p.runs + {(w, run)},
                     runStates := p.runStates[(w, run) := to], presence := p.presence[w := to]))
      case BindingCreated(b) =>
        if b.work != w then None else Some(p.(bindings := p.bindings[b.id := b]))
      case BindingActivated(id, provider) =>
        if id !in p.bindings || p.bindings[id].work != w then None
        else
          var b := p.bindings[id];
          var activated := b.(state := Active, provider := if provider.Some? then provider else b.provider);
          Some(p.(bindings := p.bindings[id := activated], active := p.active[w := id]))
      case BindingSuspended(id) =>
        if id !in p.bindings || p.bindings[id].work != w then None
        else
          Some(p.(bindings := p.bindings[id := p.bindings[id].(state := Parked)],
                  active := if Get(p.active, w) == Some(id) then p.active - {w} else p.active))
  }

  /** The rows in order, and nothing at all if one is refused. */
  function Replay(journal: seq<Entry>): Option<Projection> {
    if journal == [] then Some(Projection(map[], map[], map[], map[], map[], {}, map[], map[]))
    else
      var before := Replay(journal[..|journal| - 1]);
      if before.None? then None else ApplyRow(before.value, journal[|journal| - 1])
  }

  /** `validate_replayed_graph`: what the rebuilt projections say about each other. */
  ghost predicate Graph(p: Projection) {
    && (forall w :: w in p.works ==> WorkChecked(p, w))
    && (forall id :: id in p.bindings && p.bindings[id].work in p.works ==> BindingChecked(p, id))
    && OneActive(p.bindings)
  }

  predicate WorkChecked(p: Projection, w: string)
    requires w in p.works
  {
    && (p.works[w].kind.Automation? ==> p.works[w].session.Some?)
    && (w in p.currentRun ==> (w, p.currentRun[w]) in p.runs)
    && (w in p.active ==> p.active[w] in p.bindings)
  }

  predicate BindingChecked(p: Projection, id: string)
    requires id in p.bindings && p.bindings[id].work in p.works
  {
    var b := p.bindings[id];
    && p.works[b.work].session == Some(b.session)
    && (b.state.Active? ==> Get(p.active, b.work) == Some(id))
  }

  /** A Session has at most one active binding. */
  ghost predicate OneActive(bindings: map<string, AgentBinding>) {
    forall i, j :: i in bindings && j in bindings && BothActive(bindings[i], bindings[j]) ==> i == j
  }

  predicate BothActive(a: AgentBinding, b: AgentBinding) {
    a.state.Active? && b.state.Active? && a.session == b.session
  }

  /** `WorkGateway::open` succeeds. */
  ghost predicate Opens(journal: seq<Entry>) {
    Replay(journal).Some? && Graph(Replay(journal).value)
  }

  /** Which rows a replay takes, whoever wrote them: a creation once and owned as its kind asks,
      every other row only of a Work that was created; a stamp that is complete and contradicts
      none before it, a link that contradicts none, a state that the gateway's table allows
      after the last and that is not final as the first, and binding rows of the Work's own. */
  lemma RowTakenExactly(p: Projection, row: Entry)
    ensures ApplyRow(p, row).Some? <==>
            match row.event
            case WorkCreated(session, kind, _) => row.work !in p.works && !(kind == Automation && session == None)
            case ProvenanceStamped(s, _) =>
              && row.work in p.works
              && s.automation != "" && s.revision != "" && s.generation != 0 && s.occurrence != ""
              && s.payloadDigest != "" && s.dedupDigest != ""
              && (p.works[row.work].provenance == None || p.works[row.work].provenance == Some(s))
            case RunBound(run) => row.work in p.works && !Conflicts(Described(p.runFields, (row.work, run)), row.fields)
            case RunMoved(run, to) =>
              && row.work in p.works
              && (if (row.work, run) in p.runStates then GatewayMay(p.runStates[(row.work, run)], to)
                  else to != Completed && to != Failed && to != Cancelled)
            case BindingCreated(b) => row.work in p.works && b.work == row.work
            case BindingActivated(id, _) =>
              row.work in p.works && id in p.bindings && p.bindings[id].work == row.work
            case BindingSuspended(id) => row.work in p.works && id in p.bindings && p.bindings[id].work == row.work
  {
    if row.event.RunBound? {
      MergeExactly(Described(p.runFields, (row.work, row.event.run)), row.fields);
    }
  }

  /** What holds of any journal that can be replayed, whoever wrote it. */
  ghost predicate Placed(p: Projection) {
    && (forall w :: w in p.works && p.works[w].kind.Automation? ==> p.works[w].session.Some?)
    && (forall w :: w in p.currentRun ==> (w, p.currentRun[w]) in p.runs)
    && (forall w :: w in p.active ==> p.active[w] in p.bindings)
    && (forall id :: id in p.bindings ==> p.bindings[id].work in p.works)
  }

  lemma ApplyRowPlaced(p: Projection, row: Entry)
    requires Placed(p)
    ensures ApplyRow(p, row).Some? ==> Placed(ApplyRow(p, row).value)
  {
    if row.event.BindingCreated? || row.event.BindingActivated? || row.event.BindingSuspended? {
      BindingRowPlaced(p, row);
    } else {
      WorkRowPlaced(p, row);
    }
  }

  lemma WorkRowPlaced(p: Projection, row: Entry)
    requires Placed(p)
    requires row.event.WorkCreated? || row.event.ProvenanceStamped? || row.event.RunBound? || row.event.RunMoved?
    ensures ApplyRow(p, row).Some? ==> Placed(ApplyRow(p, row).value)
  {
  }

  lemma BindingRowPlaced(p: Projection, row: Entry)
    requires Placed(p)
    requires row.event.BindingCreated? || row.event.BindingActivated? || row.event.BindingSuspended?
    ensures ApplyRow(p, row).Some? ==> Placed(ApplyRow(p, row).value)
  {
    if ApplyRow(p, row).Some? {
      var q := ApplyRow(p, row).value;
      assert p.bindings.Keys <= q.bindings.Keys;
    }
  }

  lemma {:induction false} ReplayPlaced(journal: seq<Entry>)
    ensures Replay(journal).Some? ==> Placed(Replay(journal).value)
  {
    if journal != [] && Replay(journal[..|journal| - 1]).Some? {
      ReplayPlaced(journal[..|journal| - 1]);
      ApplyRowPlaced(Replay(journal[..|journal| - 1]).value, journal[|journal| - 1]);
    }
  }

  /** Beside a row that makes no sense only bindings can keep a journal from opening: one of
      another Session than its Work's, an active one that is not the last its Work activated,
      or two active ones of one Session. */
  lemma OpensExactly(journal: seq<Entry>)
    ensures Opens(journal) <==>
            && Replay(journal).Some?
            && var p := Replay(journal).value;
               && (forall id :: id in p.bindings ==>
                     && p.bindings[id].work in p.works
                     && p.works[p.bindings[id].work].session == Some(p.bindings[id].session)
                     && (p.bindings[id].state == Active ==> Get(p.active, p.bindings[id].work) == Some(id)))
               && (forall i, j :: i in p.bindings && j in p.bindings && i != j ==>
                     !(p.bindings[i].state == p.bindings[j].state == Active
                       && p.bindings[i].session == p.bindings[j].session))
  {
    ReplayPlaced(journal);
    if Replay(journal).Some? {
      var p := Replay(journal).value;
      if Graph(p) {
        forall id | id in p.bindings ensures BindingChecked(p, id) {
        }
        forall i, j | i in p.bindings && j in p.bindings && i != j
          ensures !(p.bindings[i].state == p.bindings[j].state == Active
                    && p.bindings[i].session == p.bindings[j].session)
        {
          assert !BothActive(p.bindings[i], p.bindings[j]);
        }
      }
    }
  }

  lemma ReplayAppend(journal: seq<Entry>, row: Entry)
    ensures Replay(journal + [row]) == if Replay(journal).None? then None else ApplyRow(Replay(journal).value, row)
  {
    assert (journal + [row])[..|journal|] == journal;
  }

  /** A journal that cannot be replayed never can again, whatever is appended. */
  lemma {:induction false} UnreadableForever(journal: seq<Entry>, later: seq<Entry>)
    requires journal <= later && Replay(journal).None?
    ensures Replay(later).None?
    decreases |later|
  {
    if journal != later {
      UnreadableForever(journal, later[..|later| - 1]);
    }
  }

  // ---------------------------------------------------------------- the live state and its replay

  /** A Work's shown state as the journal keeps it. */
  function Shown(s: Option<State>): Option<State> {
    if s.None? || s.value.Created? then s else Some(Journalled(s.value))
  }

  ghost predicate ShownSame(live: map<string, State>, replayed: map<string, State>) {
    forall w :: Get(replayed, w) == Shown(Get(live, w))
  }

  /** A Run state is what its last row stands for; a Run without a row is Ready. */
  ghost predicate StatesSame(live: map<(string, string), State>, replayed: map<(string, string), State>) {
    && replayed.Keys <= live.Keys
    && forall key :: key in live ==>
         !live[key].Created? && !live[key].Planning?
         && (if key in replayed then replayed[key] == Journalled(live[key]) else live[key].Ready?)
  }

  ghost predicate CurrentStated(g: Gateway) {
    && g.presence.Keys <= g.works.Keys && g.currentRun.Keys <= g.works.Keys
    && (forall w :: w in g.currentRun ==> (w, g.currentRun[w]) in g.runStates)
    && (forall w :: w in g.works && g.works[w].kind.Automation? ==> g.works[w].session.Some?)
  }

  ghost predicate BindingsFiled(g: Gateway) {
    forall id :: id in g.bindings ==>
      && g.bindings[id].id == id && g.bindings[id].work in g.works
      && g.works[g.bindings[id].work].session == Some(g.bindings[id].session)
  }

  /** The rows name the active binding of each Work. */
  ghost predicate ActivePointed(p: Projection) {
    && (forall id :: id in p.bindings && p.bindings[id].state.Active? ==>
        Get(p.active, p.bindings[id].work) == Some(id))
    && (forall w :: w in p.active ==> p.active[w] in p.bindings)
  }

  /** The journal gives the live gateway back, up to what a row cannot tell. */
  ghost predicate Mirrors(p: Projection, g: Gateway) {
    && p.works == g.works && p.currentRun == g.currentRun && p.bindings == g.bindings
    && p.runs == g.runStates.Keys && p.runFields == g.runFields
    && ShownSame(g.presence, p.presence) && StatesSame(g.runStates, p.runStates)
  }

  ghost predicate Restorable(g: Gateway) {
    && CurrentStated(g) && BindingsFiled(g) && OneActive(g.bindings)
    && Replay(g.journal).Some? && Mirrors(Replay(g.journal).value, g) && ActivePointed(Replay(g.journal).value)
  }

  lemma RestorableOpens(g: Gateway)
    requires Restorable(g)
    ensures Opens(g.journal)
  {
  }

  // ---------------------------------------------------------------- the gateway's calls

  datatype Call =
    | Create(work: string, session: Option<string>, kind: SessionKind, objective: string)
    | Stamp(work: string, stamp: Provenance, compiled: string)
    | Bind(work: string, run: string)
    | Record(work: string, run: string, to: State)
    | NewBinding(binding: AgentBinding)
    | Move(id: string, move: BindingMove, provider: Option<string>)

  function Apply(g: Gateway, call: Call): (Gateway, bool) {
    match call
    case Create(work, session, kind, objective) => g.CreateWork(work, session, kind, objective)
    case Stamp(work, stamp, compiled) => g.StampProvenance(work, stamp, compiled)
    case Bind(work, run) => g.BindExecution(work, run)
    case Record(work, run, to) => g.RecordTransition(work, run, to)
    case NewBinding(binding) => g.CreateBinding(binding)
    case Move(id, move, provider) => g.MoveBinding(id, move, provider)
  }

  /** The three calls whose row reaches the journal although no restart can read it back: a
      contradicting or incomplete provenance, a link that contradicts what earlier links said
      of its Run, and a final state as a Run's first row. */
  predicate Poisons(g: Gateway, call: Call) {
    Replay(g.journal).Some? &&
    match call
    case Stamp(work, stamp, _) =>
      work in g.works && g.disk(g.writes)
      && (stamp.automation == "" || stamp.revision == "" || stamp.generation == 0 || stamp.occurrence == ""
          || stamp.payloadDigest == "" || stamp.dedupDigest == ""
          || (g.works[work].provenance.Some? && g.works[work].provenance.value != stamp))
    case Bind(work, run) =>
      work in g.works && g.disk(g.writes) && !Blank(run) && !g.Replaced(work, run)
      && Conflicts(Described(g.runFields, (work, run)), g.link(g.writes))
    case Record(work, run, to) =>
      work in g.works && g.disk(g.writes) && Get(g.currentRun, work) == Some(run)
      && to.Terminal() && g.MayMove(work, run, to) && (work, run) !in Replay(g.journal).value.runStates
    case _ => false
  }

  /** Without a new row nothing changed but the write counter. */
  lemma NoRowNoChange(g: Gateway, h: Gateway)
    requires Restorable(g) && h == g.(writes := h.writes)
    ensures Restorable(h)
  {
  }

  lemma CreateRestorable(g: Gateway, work: string, session: Option<string>, kind: SessionKind, objective: string)
    requires Restorable(g)
    ensures Restorable(g.CreateWork(work, session, kind, objective).0)
  {
    var h := g.CreateWork(work, session, kind, objective).0;
    if work in g.works || (kind.Automation? && session.None?) {
      assert h == g;
    } else if g.disk(g.writes) {
      CreatedRow(g, work, session, kind, objective);
      NewWorkRestorable(g, h, work, WorkAddress(session, kind, None));
    } else {
      assert h.works == g.works && h.presence == g.presence;
      NoRowNoChange(g, h);
    }
  }

  lemma CreatedRow(g: Gateway, work: string, session: Option<string>, kind: SessionKind, objective: string)
    requires Restorable(g) && work !in g.works && (kind.Automation? ==> session.Some?) && g.disk(g.writes)
    ensures var h := g.CreateWork(work, session, kind, objective).0; var p := Replay(g.journal).value;
            var address := WorkAddress(session, kind, None);
            && h == g.(works := g.works[work := address], presence := g.presence[work := Created],
                       journal := h.journal, writes := h.writes)
            && Replay(h.journal) == Some(p.(works := p.works[work := address], presence := p.presence[work := Created]))
  {
    NewWork(g, work, session, kind, objective);
    ReplayAppend(g.journal, g.Row(work, WorkCreated(session, kind, objective)));
  }

  lemma NewWorkRestorable(g: Gateway, h: Gateway, work: string, address: WorkAddress)
    requires Restorable(g) && work !in g.works && (address.kind.Automation? ==> address.session.Some?)
    requires var p := Replay(g.journal).value;
             Replay(h.journal) == Some(p.(works := p.works[work := address], presence := p.presence[work := Created]))
    requires h == g.(works := g.works[work := address], presence := g.presence[work := Created],
                     journal := h.journal, writes := h.writes)
    ensures Restorable(h)
  {
    ShownUpdate(g.presence, Replay(g.journal).value.presence, work, Created);
    assert Mirrors(Replay(h.journal).value, h);
  }

  lemma StampRestorable(g: Gateway, work: string, stamp: Provenance, compiled: string)
    requires Restorable(g)
    ensures var h := g.StampProvenance(work, stamp, compiled).0;
            if Poisons(g, Stamp(work, stamp, compiled)) then Replay(h.journal).None? else Restorable(h)
  {
    var (h, ok) := g.StampProvenance(work, stamp, compiled);
    if work in g.works && g.disk(g.writes) {
      ReplayAppend(g.journal, g.Row(work, ProvenanceStamped(stamp, compiled)));
    } else {
      NoRowNoChange(g, h);
    }
  }

  lemma BindRestorable(g: Gateway, work: string, run: string)
    requires Restorable(g)
    ensures var h := g.BindExecution(work, run).0;
            if Poisons(g, Bind(work, run)) then Replay(h.journal).None? else Restorable(h)
  {
    var h := g.BindExecution(work, run).0;
    if work !in g.works || Blank(run) || g.Replaced(work, run) || !g.disk(g.writes) {
      NoRowNoChange(g, h);
    } else {
      MergeExactly(Described(g.runFields, (work, run)), g.link(g.writes));
      ReplayAppend(g.journal, g.Row(work, RunBound(run)));
      if !Poisons(g, Bind(work, run)) {
        LinkRestorable(g, h, work, run, Merge(Described(g.runFields, (work, run)), g.link(g.writes)).0);
      }
    }
  }

  lemma LinkRestorable(g: Gateway, h: Gateway, work: string, run: string, merged: map<string, string>)
    requires Restorable(g) && work in g.works
    requires var p := Replay(g.journal).value;
             Replay(h.journal) == Some(p.(currentRun := p.currentRun[work := run], runs := p.runs + {(work, run)},
                                          runFields := p.runFields[(work, run) := merged]))
    requires h == g.(currentRun := g.currentRun[work := run], runFields := g.runFields[(work, run) := merged],
                     runStates := h.runStates, journal := h.journal, writes := h.writes)
    requires h.runStates == if (work, run) in g.runStates then g.runStates else g.runStates[(work, run) := Ready]
    ensures Restorable(h)
  {
    assert Mirrors(Replay(h.journal).value, h);
  }

  /** A move that is legal between live states is legal between the states of their rows. */
  lemma RowsMoveToo(from: State, to: State)
    requires GatewayMay(from, to) && GatewayMay(from, Journalled(to)) && !from.Created? && !from.Planning?
    ensures GatewayMay(Journalled(from), Journalled(to)) && !to.Created? && !to.Planning?
  {
  }

  lemma ShownUpdate(live: map<string, State>, replayed: map<string, State>, w: string, to: State)
    requires ShownSame(live, replayed)
    ensures ShownSame(live[w := to], replayed[w := if to.Created? then to else Journalled(to)])
  {
    var row := if to.Created? then to else Journalled(to);
    var later, rows := live[w := to], replayed[w := row];
    forall v ensures Get(rows, v) == Shown(Get(later, v)) {
      assert Get(replayed, v) == Shown(Get(live, v));
    }
  }

  /** A recorded move whose row a restart can read. */
  lemma RecordedRestorable(g: Gateway, h: Gateway, work: string, run: string, to: State)
    requires Restorable(g) && (h, true) == g.RecordTransition(work, run, to)
    requires (work, run) in Replay(g.journal).value.runStates || !to.Terminal()
    ensures Restorable(h)
  {
    var p := Replay(g.journal).value;
    RecordedMove(g, h, work, run, to);
    ReplayAppend(g.journal, g.Row(work, RunMoved(run, Journalled(to))));
    RowsMoveToo(g.runStates[(work, run)], to);
    ShownUpdate(g.presence, p.presence, work, to);
    StatesUpdate(g.runStates, p.runStates, (work, run), to);
    MoveMirrored(g, h, work, run, to);
  }

  lemma MoveMirrored(g: Gateway, h: Gateway, work: string, run: string, to: State)
    requires Restorable(g) && (work, run) in g.runStates && Get(g.currentRun, work) == Some(run)
    requires h == g.(runStates := g.runStates[(work, run) := to], presence := g.presence[work := to],
                     journal := h.journal, writes := h.writes)
    requires var p := Replay(g.journal).value;
             && Replay(h.journal) == Some(p.(currentRun := p.currentRun[work := run], runs := p.runs + {(work, run)},
                                             runStates := p.runStates[(work, run) := Journalled(to)],
                                             presence := p.presence[work := Journalled(to)]))
             && ShownSame(g.presence[work := to], p.presence[work := Journalled(to)])
             && StatesSame(g.runStates[(work, run) := to], p.runStates[(work, run) := Journalled(to)])
    ensures Restorable(h)
  {
    var q := Replay(h.journal).value;
    assert q.runs == Replay(g.journal).value.runs && q.currentRun == g.currentRun;
    assert h.runStates.Keys == g.runStates.Keys;
    assert Mirrors(q, h);
  }

  lemma StatesUpdate(live: map<(string, string), State>, replayed: map<(string, string), State>,
                     key: (string, string), to: State)
    requires StatesSame(live, replayed) && key in live && !to.Created? && !to.Planning?
    ensures StatesSame(live[key := to], replayed[key := Journalled(to)])
  {
  }

  lemma RecordRestorable(g: Gateway, work: string, run: string, to: State)
    requires Restorable(g)
    ensures var h := g.RecordTransition(work, run, to).0;
            if Poisons(g, Record(work, run, to)) then Replay(h.journal).None? else Restorable(h)
  {
    var (h, ok) := g.RecordTransition(work, run, to);
    var row := g.Row(work, RunMoved(run, Journalled(to)));
    if !ok {
      assert h == g.(writes := h.writes);
      NoRowNoChange(g, h);
    } else if (work, run) in Replay(g.journal).value.runStates || !to.Terminal() {
      RecordedRestorable(g, h, work, run, to);
    } else {
      assert h.journal == g.journal + [row];
      FinalRowFirst(g, work, run, to);
    }
  }

  lemma FinalRowFirst(g: Gateway, work: string, run: string, to: State)
    requires Restorable(g) && to.Terminal() && (work, run) !in Replay(g.journal).value.runStates
    ensures Replay(g.journal + [g.Row(work, RunMoved(run, Journalled(to)))]).None?
  {
    ReplayAppend(g.journal, g.Row(work, RunMoved(run, Journalled(to))));
  }

  lemma NewBindingRestorable(g: Gateway, b: AgentBinding)
    requires Restorable(g)
    ensures Restorable(g.CreateBinding(b).0)
  {
    var (h, ok) := g.CreateBinding(b);
    if ok {
      ReplayAppend(g.journal, g.Row(b.work, BindingCreated(b.(state := Parked))));
    } else {
      NoRowNoChange(g, h);
    }
  }

  lemma MoveRestorable(g: Gateway, id: string, move: BindingMove, provider: Option<string>)
    requires Restorable(g)
    ensures Restorable(g.MoveBinding(id, move, provider).0)
  {
    var (h, ok) := g.MoveBinding(id, move, provider);
    if ok {
      var event := if move.Suspend? then BindingSuspended(id) else BindingActivated(id, provider);
      ReplayAppend(g.journal, g.Row(g.bindings[id].work, event));
      forall i, j | i in h.bindings && j in h.bindings && BothActive(h.bindings[i], h.bindings[j]) ensures i == j {
        assert i != id && j != id ==> BothActive(g.bindings[i], g.bindings[j]);
      }
      PointerMoved(Replay(g.journal).value, Replay(h.journal).value, g, id, move);
    } else {
      NoRowNoChange(g, h);
    }
  }

  /** In one Work the activated binding was the only candidate, and a suspended one is pointed
      at no more. */
  lemma PointerMoved(p: Projection, q: Projection, g: Gateway, id: string, move: BindingMove)
    requires BindingsFiled(g) && p.bindings == g.bindings && ActivePointed(p) && id in g.bindings
    requires !move.Suspend? ==> !g.SiblingActive(id, g.bindings[id].session)
    requires id in q.bindings && q.bindings - {id} == p.bindings - {id} && q.bindings[id].work == g.bindings[id].work
    requires var w := g.bindings[id].work;
             if move.Suspend? then
               q.bindings[id].state.Parked?
               && q.active == if Get(p.active, w) == Some(id) then p.active - {w} else p.active
             else q.active == p.active[w := id]
    ensures ActivePointed(q)
  {
    forall i | i in q.bindings && i != id ensures i in p.bindings && q.bindings[i] == p.bindings[i] {
      assert i in q.bindings - {id} && q.bindings[i] == (p.bindings - {id})[i];
    }
    forall i | i in p.bindings && i != id ensures i in q.bindings {
      assert i in p.bindings - {id};
    }
  }

  lemma ApplyRestorable(g: Gateway, call: Call)
    requires Restorable(g)
    ensures var h := Apply(g, call).0; if Poisons(g, call) then Replay(h.journal).None? else Restorable(h)
  {
    match call
    case Create(work, session, kind, objective) => CreateRestorable(g, work, session, kind, objective);
    case Stamp(work, stamp, compiled) => StampRestorable(g, work, stamp, compiled);
    case Bind(work, run) => BindRestorable(g, work, run);
    case Record(work, run, to) => RecordRestorable(g, work, run, to);
    case NewBinding(binding) => NewBindingRestorable(g, binding);
    case Move(id, move, provider) => MoveRestorable(g, id, move, provider);
  }

  // ---------------------------------------------------------------- whole lives of a gateway

  function AfterCalls(g: Gateway, calls: seq<Call>): Gateway {
    if calls == [] then g else Apply(AfterCalls(g, calls[..|calls| - 1]), calls[|calls| - 1]).0
  }

  predicate PoisonedAt(g: Gateway, calls: seq<Call>, i: nat)
    requires i < |calls|
  {
    Poisons(AfterCalls(g, calls[..i]), calls[i])
  }

  /** No call of the sequence wrote a row that cannot be read back. */
  ghost predicate NeverPoisoned(g: Gateway, calls: seq<Call>) {
    forall i :: 0 <= i < |calls| ==> !PoisonedAt(g, calls, i)
  }

  lemma ApplyGrowsJournal(g: Gateway, call: Call)
    ensures g.journal <= Apply(g, call).0.journal
  {
    match call
    case Create(_, _, _, _) =>
    case Stamp(_, _, _) =>
    case Bind(_, _) =>
    case Record(_, _, _) =>
    case NewBinding(_) =>
    case Move(_, _, _) =>
  }

  /** A poisoned journal is not only refused: it cannot even be replayed. */
  lemma {:induction false} PoisonedStays(g: Gateway, calls: seq<Call>)
    requires Restorable(g)
    ensures if NeverPoisoned(g, calls) then Restorable(AfterCalls(g, calls))
            else Replay(AfterCalls(g, calls).journal).None?
    decreases |calls|
  {
    if calls != [] {
      var n := |calls| - 1;
      var before := AfterCalls(g, calls[..n]);
      PoisonedStays(g, calls[..n]);
      NeverPoisonedLast(g, calls);
      if NeverPoisoned(g, calls[..n]) {
        ApplyRestorable(before, calls[n]);
      } else {
        ApplyGrowsJournal(before, calls[n]);
        UnreadableForever(before.journal, AfterCalls(g, calls).journal);
      }
    }
  }

  /** A gateway can be reopened from its journal exactly if none of its calls poisoned it,
      and then the replay mirrors the live state: same Works, bindings, current Runs and Run
      fields, every Run in the state of its last row. */
  lemma Reopens(g: Gateway, calls: seq<Call>)
    requires Restorable(g)
    ensures Opens(AfterCalls(g, calls).journal) <==> NeverPoisoned(g, calls)
    ensures NeverPoisoned(g, calls) ==> Restorable(AfterCalls(g, calls))
  {
    PoisonedStays(g, calls);
    if NeverPoisoned(g, calls) {
      RestorableOpens(AfterCalls(g, calls));
    }
  }

  lemma NeverPoisonedLast(g: Gateway, calls: seq<Call>)
    requires calls != []
    ensures var n := |calls| - 1;
            NeverPoisoned(g, calls) <==> NeverPoisoned(g, calls[..n]) && !PoisonedAt(g, calls, n)
  {
    var n := |calls| - 1;
    forall i | 0 <= i < n ensures PoisonedAt(g, calls[..n], i) <==> PoisonedAt(g, calls, i) {
      assert calls[..n][..i] == calls[..i];
    }
  }

  lemma EmptyRestorable(disk: nat -> bool, link: nat -> Fields)
    ensures Restorable(EmptyGateway(disk, link))
  {
  }
}
