/** The Work gateway: Works, agent bindings, the Work→Run pointer and the append-only
    journal behind them. The functions of `Gateway` say what each call does to the
    whole state; the class `WorkGateway` performs the calls on its fields. */
module WorkGatewayModel {
  import opened Basics
  import opened Lifecycle

  datatype SessionKind = Interactive | Automation | Delegated

  datatype WorkAddress = WorkAddress(session: Option<string>, kind: SessionKind, provenance: Option<Provenance>)

  /** The identity of one automation occurrence, as the journal keeps it. */
  datatype Provenance = Provenance(
    automation: string, revision: string, generation: nat, occurrence: string,
    payloadDigest: string, dedupDigest: string)
  {
    predicate Complete() {
      automation != "" && revision != "" && generation > 0 && occurrence != ""
      && payloadDigest != "" && dedupDigest != ""
    }
  }

  datatype BindingLifecycle = Active | Parked | Resuming | Dead | Unavailable

  datatype AgentBinding = AgentBinding(
    id: string, session: string, work: string, agent: string,
    provider: Option<string>, state: BindingLifecycle)

  datatype Event =
    | WorkCreated(session: Option<string>, kind: SessionKind, objective: string)
    | ProvenanceStamped(stamp: Provenance, compiled: string)
    | RunBound(run: string)
    | RunMoved(run: string, to: State)
    | BindingCreated(created: AgentBinding)
    | BindingActivated(binding: string, provider: Option<string>)
    | BindingSuspended(binding: string)

  /** The object a link describes its Run with, field by field in the order they are merged. */
  type Fields = f: seq<(string, string)> | DistinctKeys(f) witness []

  predicate DistinctKeys(f: seq<(string, string)>) {
    forall i, j :: 0 <= i < j < |f| ==> f[i].0 != f[j].0
  }

  /** Merging stops at the first field that contradicts an earlier one; the fields before it stay. */
  function Merge(kept: map<string, string>, fields: seq<(string, string)>): (map<string, string>, bool) {
    if fields == [] then (kept, true)
    else
      var (key, value) := fields[|fields| - 1];
      var (merged, ok) := Merge(kept, fields[..|fields| - 1]);
      if !ok || (key in merged && merged[key] != value) then (merged, false) else (merged[key := value], true)
  }

  /** Some field is known already, with another value. */
  predicate Conflicts(kept: map<string, string>, fields: seq<(string, string)>) {
    exists i :: 0 <= i < |fields| && fields[i].0 in kept && kept[fields[i].0] != fields[i].1
  }

  function Described<K>(m: map<K, map<string, string>>, k: K): map<string, string> {
    if k in m then m[k] else map[]
  }

  /** A row of the journal; only the rows of links carry fields. */
  datatype Entry = Entry(work: string, event: Event, fields: Fields)

  predicate Logged(journal: seq<Entry>, work: string, event: Event) {
    exists row :: row in journal && row.work == work && row.event == event
  }

  datatype BindingMove = Activate | Resume | Suspend

  /** `disk(n)` says whether the n-th journal write succeeds and `writes` counts the
      writes tried so far. `runFields` keeps what the links said about a Run, and `link(n)` is
      the object a link made by the n-th write describes its Run with: what its caller passes
      and what the gateway adds from its own records. `approvals` holds the (Work, Run) pairs with an unresolved
      approval and `uncertain` the Works with an unreconciled effect; both are kept by
      calls outside this model. */
  datatype Gateway = Gateway(
    works: map<string, WorkAddress>,
    presence: map<string, State>,
    currentRun: map<string, string>,
    runStates: map<(string, string), State>,
    runFields: map<(string, string), map<string, string>>,
    bindings: map<string, AgentBinding>,
    approvals: set<(string, string)>,
    uncertain: set<string>,
    journal: seq<Entry>,
    writes: nat,
    disk: nat -> bool,
    link: nat -> Fields)
  {

    /** `validate_run_transition`. */
    predicate MayMove(work: string, run: string, to: State) {
      (work, run) in runStates ==>
        var from := runStates[(work, run)];
        && GatewayMay(from, to)
        && !(from.WaitingApproval? && !to.WaitingApproval? && (work, run) in approvals)
        && !(from.Recoverable? && to.Running? && work in uncertain)
    }

    /** The row the next write would add. */
    function Row(work: string, event: Event): Entry {
      Entry(work, event, if event.RunBound? then link(writes) else [])
    }

    /** One journal write. A refused or failed write leaves every projection alone. */
    function Append(work: string, event: Event): (Gateway, bool) {
      if work !in works then (this, false)
      else if event.RunMoved? && !MayMove(work, event.run, event.to) then (this, false)
      else if disk(writes) then (this.(journal := journal + [Row(work, event)], writes := writes + 1), true)
      else (this.(writes := writes + 1), false)
    }

    function CreateWork(work: string, session: Option<string>, kind: SessionKind, objective: string): (Gateway, bool) {
      if kind.Automation? && session.None? then (this, false)
      else if work in works then
        (this, works[work].session == session && works[work].kind == kind)
      else
        var added := this.(works := works[work := WorkAddress(session, kind, None)],
                           presence := presence[work := Created]);
        var (next, ok) := added.Append(work, WorkCreated(session, kind, objective));
        if ok then (next, true)
        else (next.(works := next.works - {work}, presence := next.presence - {work}), false)
    }

    /** The provenance patch is applied after its row is in the journal: a stamp that
        contradicts the Work's own is refused, but its row stays. */
    function StampProvenance(work: string, stamp: Provenance, compiled: string): (Gateway, bool) {
      var (next, ok) := Append(work, ProvenanceStamped(stamp, compiled));
      if !ok then (next, false)
      else if !stamp.Complete() || (works[work].provenance.Some? && works[work].provenance.value != stamp)
        then (next, false)
      else (next.(works := works[work := works[work].(provenance := Some(stamp))]), true)
    }

    /** The Work's current Run is another one, and final. */
    predicate Replaced(work: string, run: string) {
      && work in currentRun && currentRun[work] != run
      && (work, currentRun[work]) in runStates && runStates[(work, currentRun[work])].Terminal()
    }

    /** Like a stamp, a link is journaled before its fields are merged: one that contradicts
        what is known of the Run is refused, but its row stays and the Work points at the Run. */
    function BindExecution(work: string, run: string): (Gateway, bool) {
      if work !in works || Blank(run) || Replaced(work, run) then (this, false)
      else
        var (next, ok) := Append(work, RunBound(run));
        if ok then next.Linked(work, run, Merge(Described(runFields, (work, run)), link(writes))) else (next, false)
    }

    function Linked(work: string, run: string, merged: (map<string, string>, bool)): (Gateway, bool) {
      var linked := this.(currentRun := currentRun[work := run], runFields := runFields[(work, run) := merged.0]);
      if merged.1 && (work, run) !in runStates then (linked.(runStates := runStates[(work, run) := Ready]), true)
      else (linked, merged.1)
    }

    function RecordTransition(work: string, run: string, to: State): (Gateway, bool) {
      if Get(currentRun, work) != Some(run) || !MayMove(work, run, to) then (this, false)
      else
        var (next, ok) := Append(work, RunMoved(run, Journalled(to)));
        if !ok || ((work, run) !in runStates && to.Terminal()) then (next, false)
        else (next.(runStates := runStates[(work, run) := to], presence := presence[work := to]), true)
    }

    function CreateBinding(b: AgentBinding): (Gateway, bool) {
      if b.work !in works || works[b.work].session != Some(b.session) || b.id in bindings then (this, false)
      else
        var parked := b.(state := Parked);
        var (next, ok) := Append(b.work, BindingCreated(parked));
        if ok then (next.(bindings := bindings[b.id := parked]), true) else (next, false)
    }

    /** A Session has at most one active binding; another one blocks the activation. */
    predicate SiblingActive(id: string, session: string) {
      exists other :: other in bindings && other != id && bindings[other].state.Active?
          && bindings[other].session == session
    }

    function MoveBinding(id: string, move: BindingMove, provider: Option<string>): (Gateway, bool) {
      if id !in bindings || bindings[id].state.Dead? then (this, false)
      else if !move.Suspend? && SiblingActive(id, bindings[id].session) then (this, false)
      else
        var b := bindings[id];
        var event := if move.Suspend? then BindingSuspended(id) else BindingActivated(id, provider);
        var (next, ok) := Append(b.work, event);
        if !ok then (next, false)
        else
          var moved := if move.Suspend? then b.(state := Parked)
                       else b.(state := Active, provider := if provider.Some? then provider else b.provider);
          (next.(bindings := bindings[id := moved]), true)
    }
  }

  predicate Extends(kept: map<string, string>, fields: seq<(string, string)>, merged: map<string, string>) {
    && (forall key :: key in kept ==> key in merged && merged[key] == kept[key])
    && (forall i :: 0 <= i < |fields| ==> fields[i].0 in merged && merged[fields[i].0] == fields[i].1)
  }

  /** A link is refused for its fields exactly if one of them conflicts; otherwise what is
      known stays and all of its own fields are added. */
  lemma {:induction false} MergeExactly(kept: map<string, string>, fields: seq<(string, string)>)
    requires DistinctKeys(fields)
    ensures Merge(kept, fields).1 <==> !Conflicts(kept, fields)
    ensures !Conflicts(kept, fields) ==> Extends(kept, fields, Merge(kept, fields).0)
  {
    if fields != [] {
      var n := |fields| - 1;
      MergeExactly(kept, fields[..n]);
      ConflictsSplit(kept, fields);
      if !Conflicts(kept, fields[..n]) {
        NewKey(kept, fields);
      }
      if !Conflicts(kept, fields) {
        ExtendsOneMore(kept, fields, Merge(kept, fields[..n]).0);
      }
    }
  }

  lemma ConflictsSplit(kept: map<string, string>, fields: seq<(string, string)>)
    requires fields != []
    ensures var (key, value) := fields[|fields| - 1];
            Conflicts(kept, fields) <==>
            Conflicts(kept, fields[..|fields| - 1]) || (key in kept && kept[key] != value)
  {
    var before := fields[..|fields| - 1];
    if Conflicts(kept, before) {
      var i :| 0 <= i < |before| && before[i].0 in kept && kept[before[i].0] != before[i].1;
      assert fields[i] == before[i];
    }
    if Conflicts(kept, fields) {
      var i :| 0 <= i < |fields| && fields[i].0 in kept && kept[fields[i].0] != fields[i].1;
      assert i < |before| ==> before[i] == fields[i];
    }
  }

  lemma ExtendsOneMore(kept: map<string, string>, fields: seq<(string, string)>, merged: map<string, string>)
    requires fields != [] && Extends(kept, fields[..|fields| - 1], merged)
    requires var (key, value) := fields[|fields| - 1]; key in merged ==> merged[key] == value
    ensures var (key, value) := fields[|fields| - 1]; Extends(kept, fields, merged[key := value])
  {
    var before := fields[..|fields| - 1];
    forall i | 0 <= i < |before| ensures fields[i].0 in merged && merged[fields[i].0] == fields[i].1 {
      assert before[i] == fields[i];
    }
  }

  /** A key that is not kept and does not come earlier is not there yet. */
  lemma NewKey(kept: map<string, string>, fields: seq<(string, string)>)
    requires fields != [] && DistinctKeys(fields)
    requires Extends(kept, fields[..|fields| - 1], Merge(kept, fields[..|fields| - 1]).0)
    ensures var key := fields[|fields| - 1].0; var merged := Merge(kept, fields[..|fields| - 1]).0;
            if key in kept then key in merged && merged[key] == kept[key] else key !in merged
  {
    if fields[|fields| - 1].0 !in kept {
      AbsentKey(kept, fields[..|fields| - 1], fields[|fields| - 1].0);
    }
  }

  lemma {:induction false} AbsentKey(kept: map<string, string>, fields: seq<(string, string)>, key: string)
    requires key !in kept && forall i :: 0 <= i < |fields| ==> fields[i].0 != key
    ensures key !in Merge(kept, fields).0
  {
    if fields != [] {
      AbsentKey(kept, fields[..|fields| - 1], key);
    }
  }

  lemma {:induction false} MergeStops(kept: map<string, string>, fields: seq<(string, string)>, n: nat)
    requires n <= |fields| && !Merge(kept, fields[..n]).1
    ensures Merge(kept, fields) == Merge(kept, fields[..n])
    decreases |fields|
  {
    if n == |fields| {
      assert fields[..n] == fields;
    } else {
      assert fields[..|fields| - 1][..n] == fields[..n];
      MergeStops(kept, fields[..|fields| - 1], n);
    }
  }

  /** Every journal write tried between `a` and `b` succeeded. */
  ghost predicate NoWriteFailed(a: Gateway, b: Gateway) {
    forall n :: a.writes <= n < b.writes ==> a.disk(n)
  }

  predicate SameOwner(a: AgentBinding, b: AgentBinding) {
    a.id == b.id && a.session == b.session && a.work == b.work && a.agent == b.agent
  }

  ghost predicate WorksKept(a: map<string, WorkAddress>, b: map<string, WorkAddress>) {
    forall w :: w in a ==> w in b && b[w].session == a[w].session && b[w].kind == a[w].kind
  }

  ghost predicate BindingsKept(a: map<string, AgentBinding>, b: map<string, AgentBinding>) {
    forall id :: id in a ==> id in b && SameOwner(a[id], b[id])
  }

  /** `b` continues `a`: nothing durable was lost or re-owned. Works keep their Session,
      bindings their Session, Work and agent, and the journal only grows. */
  ghost predicate Continues(a: Gateway, b: Gateway) {
    && WorksKept(a.works, b.works) && BindingsKept(a.bindings, b.bindings)
    && a.journal <= b.journal && a.writes <= b.writes && a.disk == b.disk && a.link == b.link
  }

  ghost predicate RunsElsewhere<V(!new)>(a: map<(string, string), V>, b: map<(string, string), V>, w: string) {
    forall k: (string, string) :: k.0 != w ==> Get(a, k) == Get(b, k)
  }

  ghost predicate BindingsElsewhere(a: map<string, AgentBinding>, b: map<string, AgentBinding>, w: string) {
    && (forall id :: id in a && a[id].work != w ==> id in b && b[id] == a[id])
    && (forall id :: id in b && b[id].work != w ==> id in a)
  }

  /** Nothing of any Work other than `w` changed. */
  ghost predicate OnlyWork(a: Gateway, b: Gateway, w: string) {
    && a.works - {w} == b.works - {w}
    && a.presence - {w} == b.presence - {w}
    && a.currentRun - {w} == b.currentRun - {w}
    && RunsElsewhere(a.runStates, b.runStates, w) && RunsElsewhere(a.runFields, b.runFields, w)
    && BindingsElsewhere(a.bindings, b.bindings, w)
    && a.approvals == b.approvals && a.uncertain == b.uncertain
  }

  /** Creating a Work that is not there. */
  lemma NewWork(g: Gateway, work: string, session: Option<string>, kind: SessionKind, objective: string)
    requires work !in g.works && (kind.Automation? ==> session.Some?)
    ensures g.CreateWork(work, session, kind, objective) ==
            if g.disk(g.writes)
            then (g.(works := g.works[work := WorkAddress(session, kind, None)],
                     presence := g.presence[work := Created],
                     journal := g.journal + [g.Row(work, WorkCreated(session, kind, objective))],
                     writes := g.writes + 1), true)
            else (g.(presence := g.presence - {work}, writes := g.writes + 1), false)
  {
    var h := g.CreateWork(work, session, kind, objective).0;
    if !g.disk(g.writes) {
      assert h.works == g.works;
      assert h.presence == g.presence - {work};
    }
  }

  /** What a recorded move leaves. */
  lemma RecordedMove(g: Gateway, h: Gateway, work: string, run: string, to: State)
    requires g.RecordTransition(work, run, to) == (h, true)
    ensures h == g.(runStates := g.runStates[(work, run) := to], presence := g.presence[work := to],
                    journal := g.journal + [g.Row(work, RunMoved(run, Journalled(to)))], writes := g.writes + 1)
    ensures Get(g.currentRun, work) == Some(run) && g.MayMove(work, run, to) && g.MayMove(work, run, Journalled(to))
    ensures (work, run) in g.runStates || !to.Terminal()
  {
  }

  function EmptyGateway(disk: nat -> bool, link: nat -> Fields): Gateway {
    Gateway(map[], map[], map[], map[], map[], map[], {}, {}, [], 0, disk, link)
  }

  class WorkGateway {
    var works: map<string, WorkAddress>
    var presence: map<string, State>
    var currentRun: map<string, string>
    var runStates: map<(string, string), State>
    var runFields: map<(string, string), map<string, string>>
    var bindings: map<string, AgentBinding>
    var approvals: set<(string, string)>
    var uncertain: set<string>
    var journal: seq<Entry>
    var writes: nat
    const disk: nat -> bool
    const link: nat -> Fields

    ghost function Now(): Gateway reads this {
      Gateway(works, presence, currentRun, runStates, runFields, bindings, approvals, uncertain, journal, writes,
              disk, link)
    }

    constructor (disk: nat -> bool, link: nat -> Fields)
      ensures Now() == EmptyGateway(disk, link)
    {
      works, presence, currentRun, runStates, runFields := map[], map[], map[], map[], map[];
      bindings, approvals, uncertain, journal, writes := map[], {}, {}, [], 0;
      this.disk, this.link := disk, link;
    }

    method Append(work: string, event: Event) returns (ok: bool)
      modifies this`journal, this`writes
      ensures (Now(), ok) == old(Now()).Append(work, event)
      ensures ok <==> work in works && disk(old(writes))
                      && (event.RunMoved? ==> Now().MayMove(work, event.run, event.to))
      ensures ok ==> |journal| == |old(journal)| + 1 && journal[..|old(journal)|] == old(journal)
                     && journal[|old(journal)|].work == work && journal[|old(journal)|].event == event
      ensures !ok ==> journal == old(journal)
    {
      if work !in works {
        return false;
      }
      if event.RunMoved? {
        var legal := MayMove(work, event.run, event.to);
        if !legal {
          return false;
        }
      }
      var row := Entry(work, event, if event.RunBound? then link(writes) else []);
      ok := disk(writes);
      writes := writes + 1;
      if ok {
        journal := journal + [row];
      }
    }

    method MayMove(work: string, run: string, to: State) returns (ok: bool)
      ensures ok == Now().MayMove(work, run, to)
      ensures (work, run) !in runStates ==> ok
      ensures ok && (work, run) in runStates ==> GatewayMay(runStates[(work, run)], to)
      ensures !ok ==> !GatewayMay(runStates[(work, run)], to)
                      || (runStates[(work, run)].WaitingApproval? && !to.WaitingApproval? && (work, run) in approvals)
                      || (runStates[(work, run)].Recoverable? && to.Running? && work in uncertain)
      ensures (work, run) in runStates && (work, run) in approvals && runStates[(work, run)].WaitingApproval? && ok ==>
                to.WaitingApproval?
      ensures (work, run) in runStates && work in uncertain && runStates[(work, run)].Recoverable? && ok ==>
                !to.Running?
    {
      if (work, run) !in runStates {
        return true;
      }
      var from := runStates[(work, run)];
      if !GatewayMay(from, to) {
        return false;
      }
      if from.WaitingApproval? && !to.WaitingApproval? && (work, run) in approvals {
        return false;
      }
      return !(to.Running? && from.Recoverable? && work in uncertain);
    }

    method CreateWork(work: string, session: Option<string>, kind: SessionKind, objective: string) returns (ok: bool)
      modifies this
      ensures (Now(), ok) == old(Now()).CreateWork(work, session, kind, objective)
      ensures ok <==> (kind.Automation? ==> session.Some?)
                      && if work in old(works) then old(works)[work].session == session && old(works)[work].kind == kind
                         else disk(old(writes))
      ensures works == if ok && work !in old(works) then old(works)[work := WorkAddress(session, kind, None)]
                       else old(works)
      ensures work !in old(works) ==> Get(presence, work) == (if ok then Some(Created) else old(Get(presence, work)))
                                      || (!ok && work !in presence)
      ensures ok && work !in old(works) ==> Logged(journal, work, WorkCreated(session, kind, objective))
    {
      if kind.Automation? && session.None? {
        return false;
      }
      if work in works {
        return works[work].session == session && works[work].kind == kind;
      }
      works := works[work := WorkAddress(session, kind, None)];
      presence := presence[work := Created];
      ok := Append(work, WorkCreated(session, kind, objective));
      if !ok {
        works := works - {work};
        presence := presence - {work};
      }
    }

    method StampProvenance(work: string, stamp: Provenance, compiled: string) returns (ok: bool)
      modifies this
      ensures (Now(), ok) == old(Now()).StampProvenance(work, stamp, compiled)
      ensures work in old(works) && disk(old(writes)) ==> Logged(journal, work, ProvenanceStamped(stamp, compiled))
      ensures ok ==> work in works && works == old(works)[work := old(works)[work].(provenance := Some(stamp))]
      ensures !ok ==> works == old(works)
      ensures ok <==>
              && work in old(works) && disk(old(writes))
              && (old(works)[work].provenance.None? || old(works)[work].provenance.value == stamp)
              && stamp.automation != "" && stamp.revision != "" && stamp.generation != 0 && stamp.occurrence != ""
              && stamp.payloadDigest != "" && stamp.dedupDigest != ""
    {
      ok := Append(work, ProvenanceStamped(stamp, compiled));
      if ok {
        var address := works[work];
        if !stamp.Complete() || (address.provenance.Some? && address.provenance.value != stamp) {
          return false;
        }
        works := works[work := address.(provenance := Some(stamp))];
      }
    }

    method BindExecution(work: string, run: string) returns (ok: bool)
      modifies this
      ensures (Now(), ok) == old(Now()).BindExecution(work, run)
      ensures ok <==>
              && work in works && disk(old(writes)) && (exists i :: 0 <= i < |run| && !IsSpace(run[i]))
              && !(work in old(currentRun) && old(currentRun)[work] != run
                   && (work, old(currentRun)[work]) in old(runStates)
                   && old(runStates)[(work, old(currentRun)[work])].Terminal())
              && !Conflicts(Described(old(runFields), (work, run)), link(old(writes)))
      ensures ok ==> currentRun == old(currentRun)[work := run]
      ensures ok ==> runStates == if (work, run) in old(runStates) then old(runStates)
                                  else old(runStates)[(work, run) := Ready]
      ensures !ok ==> runStates == old(runStates)
    {
      if work !in works || Blank(run) {
        return false;
      }
      if work in currentRun && currentRun[work] != run {
        var current := (work, currentRun[work]);
        if current in runStates && runStates[current].Terminal() {
          return false;
        }
      }
      var fields := link(writes);
      ok := Append(work, RunBound(run));
      if ok {
        currentRun := currentRun[work := run];
        ok := Describe((work, run), fields);
      }
      if ok && (work, run) !in runStates {
        runStates := runStates[(work, run) := Ready];
      }
    }

    /** Adds the fields one by one, up to the first that contradicts what is known. */
    method Describe(key: (string, string), fields: Fields) returns (ok: bool)
      modifies this`runFields
      ensures var (merged, agrees) := Merge(Described(old(runFields), key), fields);
              runFields == old(runFields)[key := merged] && ok == agrees
      ensures ok <==> !Conflicts(Described(old(runFields), key), fields)
      ensures ok ==> Extends(Described(old(runFields), key), fields, runFields[key])
    {
      MergeExactly(Described(runFields, key), fields);
      var known := if key in runFields then runFields[key] else map[];
      ok := true;
      for i := 0 to |fields|
        invariant ok && runFields == old(runFields)
        invariant (known, true) == Merge(Described(old(runFields), key), fields[..i])
      {
        var (name, value) := fields[i];
        assert fields[..i + 1][..i] == fields[..i];
        if name in known && known[name] != value {
          MergeStops(Described(old(runFields), key), fields, i + 1);
          runFields := runFields[key := known];
          return false;
        }
        known := known[name := value];
      }
      assert fields[..|fields|] == fields;
      runFields := runFields[key := known];
    }

    method RecordTransition(work: string, run: string, to: State) returns (ok: bool)
      modifies this
      ensures (Now(), ok) == old(Now()).RecordTransition(work, run, to)
      ensures ok <==>
              && Get(currentRun, work) == Some(run) && work in works && disk(old(writes))
              && if (work, run) in old(runStates)
                 then var from := old(runStates)[(work, run)];
                      && GatewayMay(from, to) && GatewayMay(from, Journalled(to))
                      && !(from.WaitingApproval? && !to.WaitingApproval? && (work, run) in approvals)
                      && !(from.Recoverable? && to.Running? && work in uncertain)
                 else !to.Terminal()
      ensures runStates == if ok then old(runStates)[(work, run) := to] else old(runStates)
      ensures presence == if ok then old(presence)[work := to] else old(presence)
    {
      if Get(currentRun, work) != Some(run) {
        return false;
      }
      ok := MayMove(work, run, to);
      if !ok {
        return;
      }
      ok := Append(work, RunMoved(run, Journalled(to)));
      if ok {
        if (work, run) !in runStates && to.Terminal() {
          return false;
        }
        runStates := runStates[(work, run) := to];
        presence := presence[work := to];
      }
    }

    method CreateBinding(b: AgentBinding) returns (ok: bool)
      modifies this
      ensures (Now(), ok) == old(Now()).CreateBinding(b)
      ensures ok <==> b.work in works && works[b.work].session == Some(b.session) && b.id !in old(bindings)
                      && disk(old(writes))
      ensures bindings == if ok then old(bindings)[b.id := b.(state := Parked)] else old(bindings)
    {
      if b.work !in works || works[b.work].session != Some(b.session) || b.id in bindings {
        return false;
      }
      var parked := b.(state := Parked);
      ok := Append(b.work, BindingCreated(parked));
      if ok {
        bindings := bindings[b.id := parked];
      }
    }

    method MoveBinding(id: string, move: BindingMove, provider: Option<string>) returns (ok: bool)
      modifies this
      ensures (Now(), ok) == old(Now()).MoveBinding(id, move, provider)
      ensures ok <==>
              && id in old(bindings) && old(bindings)[id].state != Dead
              && old(bindings)[id].work in works && disk(old(writes))
              && (move == Suspend
                  || !exists other :: other in old(bindings) && other != id && old(bindings)[other].state == Active
                                      && old(bindings)[other].session == old(bindings)[id].session)
      ensures !ok ==> bindings == old(bindings)
      ensures ok && move == Suspend ==> bindings == old(bindings)[id := old(bindings)[id].(state := Parked)]
      ensures ok && move != Suspend ==>
                exists b :: bindings == old(bindings)[id := b] && b.state == Active
                  && b.provider == (if provider.Some? then provider else old(bindings)[id].provider)
                  && SameOwner(old(bindings)[id], b)
    {
      if id !in bindings || bindings[id].state.Dead? {
        return false;
      }
      var b := bindings[id];
      if !move.Suspend? {
        if other :|
          other in bindings && other != id && bindings[other].state.Active? && bindings[other].session == b.session
        {
          return false;
        }
      }
      var event := if move.Suspend? then BindingSuspended(id) else BindingActivated(id, provider);
      ok := Append(b.work, event);
      if ok {
        if move.Suspend? {
          b := b.(state := Parked);
        } else {
          b := b.(state := Active, provider := if provider.Some? then provider else b.provider);
        }
        bindings := bindings[id := b];
      }
    }
  }
}
