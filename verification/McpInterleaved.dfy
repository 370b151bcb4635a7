/** The MCP commands interleaved at the places where they release a lock: when a stopped
    server can have a child again. */
module McpInterleaved {
  import opened Basics
  import opened McpLifecycle
  import Runs = McpRuns

  /** Who wants a child: a tool call, a refresh, or the user's start. */
  datatype Kind = ToolCall | Refresh | Explicit

  /** Where a command is between two locked sections. Spawn and handshake touch nothing shared
      and belong to the section after them. */
  datatype Task =
    | Looked(name: string, kind: Kind)
    | Allowed(name: string, kind: Kind, row: Row)
    | Inserted(name: string)
    | Spent(attach: Runs.Attach)
    | AttachInserted(attach: Runs.Attach)
    | Taken(name: string)
    | Dropping(name: string, had: bool)
    | Unsaved
    | Saving(copy: map<string, Row>)
    | Ended

  /** `spent` records the attaches whose ticket was spent. */
  datatype World = World(rows: map<string, Row>, live: map<string, Child>, file: map<string, Row>,
                         tasks: map<nat, Task>, spent: set<Runs.Attach>)
  {
    function To(t: nat, task: Task): World {
      this.(tasks := tasks[t := task])
    }
  }

  /** The first six begin a command `t`, `Goes` is its next section; `ok` says whether a child
      answers the handshake, or a file is written. A refresh prunes and then brings up its
      servers one by one; each of these is a command of its own here. */
  datatype Step =
    | Looks(t: nat, name: string, kind: Kind)
    | Attaches(t: nat, attach: Runs.Attach)
    | Stops(t: nat, name: string)
    | Detaches(t: nat, name: string)
    | SetsAutoStart(t: nat, name: string, autoStart: bool)
    | Prunes(dead: set<string>)
    | Goes(t: nat, ok: bool)
    | Restarts

  function Take(w: World, step: Step): World {
    match step
    case Looks(t, name, kind) =>
      if t in w.tasks then w else w.To(t, if name in w.live then Ended else Looked(name, kind))
    case Attaches(t, a) =>
      if t in w.tasks then w
      else
        (match Runs.SanitizeName(a.name)
         case None => w.To(t, Ended)
         case Some(name) => w.(spent := w.spent + {a.(name := name)}).To(t, Spent(a.(name := name))))
    case Stops(t, name) =>
      if t in w.tasks then w
      else if name == NATIVE then w.To(t, Ended)
      else w.(live := w.live - {name}).To(t, Taken(name))
    case Detaches(t, name) =>
      if t in w.tasks then w else w.(live := w.live - {name}).To(t, Dropping(name, name in w.live))
    case SetsAutoStart(t, name, autoStart) =>
      if t in w.tasks then w
      else if name !in w.rows then w.To(t, Ended)
      else w.(rows := w.rows[name := w.rows[name].(autoStart := autoStart)]).To(t, Unsaved)
    case Prunes(dead) => w.(live := w.live - dead)
    case Goes(t, ok) => if t in w.tasks then Go(w, t, ok) else w
    case Restarts =>
      World(map name | name in w.file :: w.file[name].(connected := false), map[], w.file, map[], w.spent)
  }

  function Go(w: World, t: nat, ok: bool): World
    requires t in w.tasks
  {
    match w.tasks[t]
    case Looked(name, kind) =>
      w.To(t, if name in w.rows && Allows(kind, w.rows[name]) then Allowed(name, kind, w.rows[name]) else Ended)
    case Allowed(name, kind, row) =>
      if !ok then w.To(t, Ended)
      else
        w.(live := w.live[name := Child(row.command, row.args)])
        .To(t, if kind.ToolCall? then Ended else Inserted(name))
    case Inserted(name) =>
      w.(rows := if name in w.rows then w.rows[name := w.rows[name].(connected := true, stopped := false)] else w.rows)
      .To(t, Unsaved)
    case Spent(a) =>
      if !ok then w.To(t, Ended)
      else w.(live := w.live[a.name := Child(a.command, a.args)]).To(t, AttachInserted(a))
    case AttachInserted(a) =>
      w.(rows := w.rows[a.name := Row(a.command, a.args, true, false, true)]).To(t, Unsaved)
    case Taken(name) =>
      if name !in w.rows then w.To(t, Ended)
      else w.(rows := w.rows[name := w.rows[name].(stopped := true, connected := false)]).To(t, Unsaved)
    case Dropping(name, had) =>
      w.(rows := w.rows - {name}).To(t, if had || name in w.rows then Unsaved else Ended)
    case Unsaved => w.To(t, Saving(w.rows))
    case Saving(copy) => w.(file := if ok then copy else w.file).To(t, Ended)
    case Ended => w
  }

  predicate Allows(kind: Kind, row: Row) {
    if kind.Explicit? then ExplicitStartAllowed(row) else LazyStartAllowed(row)
  }

  function After(w: World, steps: seq<Step>): World
    decreases |steps|
  {
    if steps == [] then w else After(Take(w, steps[0]), steps[1..])
  }

  // ---------------------------------------------------------------- when a server can have a child

  /** The steps that begin a new start of the server by the user: a start or an attach. */
  predicate Wanted(step: Step, name: string) {
    || (step.Looks? && step.name == name && step.kind.Explicit?)
    || (step.Attaches? && Runs.SanitizeName(step.attach.name) == Some(name))
  }

  /** Nobody wants the server any more; `reboots` says whether the app may be restarted. */
  predicate Unwanted(steps: seq<Step>, name: string, reboots: bool) {
    forall i :: 0 <= i < |steps| ==> !Wanted(steps[i], name) && (steps[i].Restarts? ==> reboots)
  }

  predicate Commanded(rows: map<string, Row>, name: string) {
    name in rows && Trim(rows[name].command) != ""
  }

  predicate Startable(rows: map<string, Row>, name: string) {
    Commanded(rows, name) && !rows[name].stopped
  }

  /** A command in flight that will start the server, or let a later one start it. */
  predicate Revives(task: Task, rows: map<string, Row>, name: string, reboots: bool) {
    match task
    case Looked(n, kind) => n == name && kind.Explicit? && Commanded(rows, name)
    case Allowed(n, _, _) => n == name
    case Inserted(n) => n == name && Commanded(rows, name)
    case Spent(a) => a.name == name
    case AttachInserted(a) => a.name == name && Trim(a.command) != ""
    case Saving(copy) => reboots && Startable(copy, name)
    case _ => false
  }

  ghost predicate Revived(w: World, name: string, reboots: bool) {
    exists t :: t in w.tasks && Revives(w.tasks[t], w.rows, name, reboots)
  }

  ghost predicate CanRun(w: World, name: string, reboots: bool) {
    || name in w.live || Startable(w.rows, name) || (reboots && Startable(w.file, name))
    || Revived(w, name, reboots)
  }

  /** Some continuation gives the server a child although nobody wants it. */
  ghost predicate Returns(w: World, name: string, reboots: bool) {
    exists steps :: Unwanted(steps, name, reboots) && name in After(w, steps).live
  }

  /** One command moved on, and no row of the server got a command. */
  ghost predicate Onward(w: World, v: World, t: nat, name: string, reboots: bool) {
    && v.tasks.Keys <= w.tasks.Keys + {t}
    && (forall u :: u in v.tasks && u != t ==> u in w.tasks && v.tasks[u] == w.tasks[u])
    && (t in v.tasks ==> !Revives(v.tasks[t], v.rows, name, reboots))
    && (Commanded(v.rows, name) ==> Commanded(w.rows, name))
    && name !in v.live && !Startable(v.rows, name) && (reboots ==> !Startable(v.file, name))
  }

  lemma OnwardNeverRuns(w: World, v: World, t: nat, name: string, reboots: bool)
    requires !CanRun(w, name, reboots) && Onward(w, v, t, name, reboots)
    ensures !CanRun(v, name, reboots)
  {
  }

  lemma StartsOnward(w: World, t: nat, ok: bool, name: string, reboots: bool)
    requires !CanRun(w, name, reboots) && t in w.tasks && !Revives(w.tasks[t], w.rows, name, reboots)
    requires w.tasks[t].Looked? || w.tasks[t].Allowed? || w.tasks[t].Spent?
    ensures Onward(w, Go(w, t, ok), t, name, reboots)
  {
  }

  lemma MarksOnward(w: World, t: nat, ok: bool, name: string, reboots: bool)
    requires !CanRun(w, name, reboots) && t in w.tasks && !Revives(w.tasks[t], w.rows, name, reboots)
    requires w.tasks[t].Inserted? || w.tasks[t].AttachInserted? || w.tasks[t].Taken? || w.tasks[t].Dropping?
    ensures Onward(w, Go(w, t, ok), t, name, reboots)
  {
  }

  lemma SavesOnward(w: World, t: nat, ok: bool, name: string, reboots: bool)
    requires !CanRun(w, name, reboots) && t in w.tasks && !Revives(w.tasks[t], w.rows, name, reboots)
    requires w.tasks[t].Unsaved? || w.tasks[t].Saving? || w.tasks[t].Ended?
    ensures Onward(w, Go(w, t, ok), t, name, reboots)
  {
  }

  lemma GoNeverRuns(w: World, t: nat, ok: bool, name: string, reboots: bool)
    requires !CanRun(w, name, reboots) && t in w.tasks
    ensures !CanRun(Go(w, t, ok), name, reboots)
  {
    assert !Revives(w.tasks[t], w.rows, name, reboots);
    match w.tasks[t]
    case Looked(_, _) => StartsOnward(w, t, ok, name, reboots);
    case Allowed(_, _, _) => StartsOnward(w, t, ok, name, reboots);
    case Spent(_) => StartsOnward(w, t, ok, name, reboots);
    case Unsaved => SavesOnward(w, t, ok, name, reboots);
    case Saving(_) => SavesOnward(w, t, ok, name, reboots);
    case Ended => SavesOnward(w, t, ok, name, reboots);
    case _ => MarksOnward(w, t, ok, name, reboots);
    OnwardNeverRuns(w, Go(w, t, ok), t, name, reboots);
  }

  lemma BeginsOnward(w: World, step: Step, name: string, reboots: bool)
    requires !CanRun(w, name, reboots) && !Wanted(step, name)
    requires step.Looks? || step.Stops? || step.Detaches? || step.SetsAutoStart?
    requires step.t !in w.tasks
    ensures Onward(w, Take(w, step), step.t, name, reboots)
  {
  }

  lemma NeverRuns(w: World, step: Step, name: string, reboots: bool)
    requires !CanRun(w, name, reboots) && !Wanted(step, name) && (step.Restarts? ==> reboots)
    ensures !CanRun(Take(w, step), name, reboots)
  {
    match step
    case Goes(t, ok) =>
      if t in w.tasks {
        GoNeverRuns(w, t, ok, name, reboots);
      }
    case Prunes(_) => OnwardNeverRuns(w, Take(w, step), 0, name, reboots);
    case Restarts =>
    case Attaches(t, _) =>
      if t !in w.tasks {
        OnwardNeverRuns(w, Take(w, step), t, name, reboots);
      }
    case _ =>
      if step.t !in w.tasks {
        BeginsOnward(w, step, name, reboots);
        OnwardNeverRuns(w, Take(w, step), step.t, name, reboots);
      }
  }

  lemma {:induction false} NeverReturns(w: World, steps: seq<Step>, name: string, reboots: bool)
    requires !CanRun(w, name, reboots) && Unwanted(steps, name, reboots)
    ensures !CanRun(After(w, steps), name, reboots)
    decreases |steps|
  {
    if steps != [] {
      assert !Wanted(steps[0], name);
      NeverRuns(w, steps[0], name, reboots);
      NeverReturns(Take(w, steps[0]), steps[1..], name, reboots);
    }
  }

  lemma StepThenReturns(w: World, step: Step, name: string, reboots: bool)
    requires !Wanted(step, name) && (step.Restarts? ==> reboots)
    requires Returns(Take(w, step), name, reboots)
    ensures Returns(w, name, reboots)
  {
    var steps :| Unwanted(steps, name, reboots) && name in After(Take(w, step), steps).live;
    var all := [step] + steps;
    assert all[1..] == steps;
    assert Unwanted(all, name, reboots) && name in After(w, all).live;
  }

  lemma AliveReturns(w: World, name: string, reboots: bool)
    requires name in w.live
    ensures Returns(w, name, reboots)
  {
    assert Unwanted([], name, reboots) && name in After(w, []).live;
  }

  lemma {:induction false} Above(s: set<nat>) returns (bound: nat)
    ensures forall t :: t in s ==> t < bound
  {
    bound := 0;
    if s != {} {
      var t :| t in s;
      var rest := Above(s - {t});
      bound := if rest > t then rest else t + 1;
      assert forall x :: x in s ==> x == t || x in s - {t};
    }
  }

  lemma FreshTask(w: World) returns (t: nat)
    ensures t !in w.tasks
  {
    t := Above(w.tasks.Keys);
    assert t in w.tasks ==> t in w.tasks.Keys;
  }

  lemma AllowedReturns(w: World, t: nat, name: string, reboots: bool)
    requires t in w.tasks && w.tasks[t].Allowed? && w.tasks[t].name == name
    ensures Returns(w, name, reboots)
  {
    AliveReturns(Take(w, Goes(t, true)), name, reboots);
    StepThenReturns(w, Goes(t, true), name, reboots);
  }

  lemma LookedReturns(w: World, t: nat, name: string, reboots: bool)
    requires t in w.tasks && w.tasks[t].Looked? && w.tasks[t].name == name
    requires name in w.rows && Allows(w.tasks[t].kind, w.rows[name])
    ensures Returns(w, name, reboots)
  {
    AllowedReturns(Take(w, Goes(t, true)), t, name, reboots);
    StepThenReturns(w, Goes(t, true), name, reboots);
  }

  /** A row that is not stopped starts on a tool call, if need be after auto-start is set. */
  lemma StartableReturns(w: World, name: string, reboots: bool)
    requires Startable(w.rows, name)
    ensures Returns(w, name, reboots)
  {
    if name in w.live {
      AliveReturns(w, name, reboots);
    } else {
      var t := FreshTask(w);
      var v := Take(w, SetsAutoStart(t, name, true));
      var u := FreshTask(v);
      LookedReturns(Take(v, Looks(u, name, ToolCall)), u, name, reboots);
      StepThenReturns(v, Looks(u, name, ToolCall), name, reboots);
      StepThenReturns(w, SetsAutoStart(t, name, true), name, reboots);
    }
  }

  lemma FileReturns(w: World, name: string)
    requires Startable(w.file, name)
    ensures Returns(w, name, true)
  {
    StartableReturns(Take(w, Restarts), name, true);
    StepThenReturns(w, Restarts, name, true);
  }

  lemma RevivedReturns(w: World, t: nat, name: string, reboots: bool)
    requires t in w.tasks && Revives(w.tasks[t], w.rows, name, reboots)
    ensures Returns(w, name, reboots)
  {
    var step := Goes(t, true);
    var v := Take(w, step);
    match w.tasks[t]
    case Looked(_, _) => LookedReturns(w, t, name, reboots);
    case Allowed(_, _, _) => AllowedReturns(w, t, name, reboots);
    case Spent(_) =>
      AliveReturns(v, name, reboots);
      StepThenReturns(w, step, name, reboots);
    case Saving(_) =>
      FileReturns(v, name);
      StepThenReturns(w, step, name, reboots);
    case _ =>
      StartableReturns(v, name, reboots);
      StepThenReturns(w, step, name, reboots);
  }

  /** When a server can have a child although nobody wants one any more: exactly if it has one,
      its row is not stopped, a restart would bring back such a row, or a command is in flight
      that was allowed to start it, will take back its stop, or holds an older copy of the
      registry it is about to write. */
  lemma ReturnsExactly(w: World, name: string, reboots: bool)
    ensures Returns(w, name, reboots) <==> CanRun(w, name, reboots)
  {
    if name in w.live {
      AliveReturns(w, name, reboots);
    } else if Startable(w.rows, name) {
      StartableReturns(w, name, reboots);
    } else if reboots && Startable(w.file, name) {
      FileReturns(w, name);
    } else if Revived(w, name, reboots) {
      var t :| t in w.tasks && Revives(w.tasks[t], w.rows, name, reboots);
      RevivedReturns(w, t, name, reboots);
    } else if Returns(w, name, reboots) {
      var steps :| Unwanted(steps, name, reboots) && name in After(w, steps).live;
      NeverReturns(w, steps, name, reboots);
      assert false;
    }
  }

  // ---------------------------------------------------------------- what a stop achieves

  /** A stop that has just marked the row holds for the life of the app exactly if no child was
      inserted behind its back and no start of that server is in flight. */
  lemma StopHoldsExactly(w: World, t: nat, ok: bool, name: string)
    requires Get(w.tasks, t) == Some(Taken(name)) && name in w.rows
    ensures var v := Take(w, Goes(t, ok));
            && v.rows[name].stopped
            && (!Returns(v, name, false) <==> name !in w.live && !Revived(w, name, false))
  {
    var v := Take(w, Goes(t, ok));
    ReturnsExactly(v, name, false);
    StopSparesStarts(w, t, ok, name);
  }

  lemma StopSparesStarts(w: World, t: nat, ok: bool, name: string)
    requires Get(w.tasks, t) == Some(Taken(name)) && name in w.rows
    ensures Revived(Take(w, Goes(t, ok)), name, false) <==> Revived(w, name, false)
  {
    var v := Take(w, Goes(t, ok));
    assert forall u :: u in v.tasks && Revives(v.tasks[u], v.rows, name, false) ==>
                         u in w.tasks && Revives(w.tasks[u], w.rows, name, false);
    assert forall u :: u in w.tasks && Revives(w.tasks[u], w.rows, name, false) ==>
                         u in v.tasks && Revives(v.tasks[u], v.rows, name, false);
  }

  /** When the copy a stop took is written, the stop holds over restarts too, exactly if besides
      no command is about to write an older copy in which the row is not stopped. */
  lemma WrittenStopHoldsExactly(w: World, t: nat, name: string)
    requires t in w.tasks && w.tasks[t].Saving? && !Startable(w.tasks[t].copy, name) && !Startable(w.rows, name)
    ensures !Returns(Take(w, Goes(t, true)), name, true) <==> name !in w.live && !Revived(w, name, true)
  {
    var v := Take(w, Goes(t, true));
    ReturnsExactly(v, name, true);
    assert forall u :: u in v.tasks && Revives(v.tasks[u], v.rows, name, true) ==>
                         u in w.tasks && Revives(w.tasks[u], w.rows, name, true);
    assert forall u :: u in w.tasks && Revives(w.tasks[u], w.rows, name, true) ==>
                         u in v.tasks && Revives(v.tasks[u], v.rows, name, true);
  }

  // ---------------------------------------------------------------- commands run alone

  function Left(task: Task): nat {
    match task
    case Looked(_, _) => 5
    case Allowed(_, _, _) => 4
    case Spent(_) => 4
    case Inserted(_) => 3
    case AttachInserted(_) => 3
    case Taken(_) => 3
    case Dropping(_, _) => 3
    case Unsaved => 2
    case Saving(_) => 1
    case Ended => 0
  }

  /** The remaining sections of a command with nothing in between; `up` says whether its child
      answers, `saved` whether its write succeeds. */
  function Alone(w: World, t: nat, up: bool, saved: bool): World
    requires t in w.tasks
    decreases Left(w.tasks[t])
  {
    if w.tasks[t].Ended? then w else Alone(Go(w, t, if w.tasks[t].Saving? then saved else up), t, up, saved)
  }

  predicate Shows(w: World, r: Registry) {
    w.rows == r.rows && w.live == r.live && w.file == r.file
  }

  predicate Begins(w: World, step: Step) {
    (step.Looks? || step.Attaches? || step.Stops? || step.Detaches? || step.SetsAutoStart?) && step.t !in w.tasks
  }

  /** The command as a single step of the registry. */
  function OneStep(r: Registry, step: Step, up: bool): Registry {
    match step
    case Looks(_, name, kind) =>
      if kind.ToolCall? then r.LazyCall(name, up).0 else r.BringUp(name, kind.Explicit?, up).0
    case Attaches(_, a) =>
      (match Runs.SanitizeName(a.name)
       case None => r
       case Some(name) => if up then r.Attached(name, a.command, a.args) else r)
    case Stops(_, name) => r.Stop(name)
    case Detaches(_, name) => r.Detach(name)
    case SetsAutoStart(_, name, autoStart) => r.SetAutoStart(name, autoStart)
    case _ => r
  }

  lemma SavedAlone(w: World, t: nat, up: bool, saved: bool)
    requires t in w.tasks && w.tasks[t].Unsaved?
    ensures Alone(w, t, up, saved) == w.(file := if saved then w.rows else w.file, tasks := w.tasks[t := Ended])
  {
    var v := Go(w, t, up);
    var done := Go(v, t, saved);
    assert v == w.To(t, Saving(w.rows)) && done.tasks == w.tasks[t := Ended];
    assert Alone(v, t, up, saved) == done;
  }

  lemma StopAlone(w: World, t: nat, name: string, up: bool, saved: bool)
    requires t !in w.tasks && name != NATIVE && name in w.rows
    ensures var rows := w.rows[name := w.rows[name].(stopped := true, connected := false)];
            Alone(Take(w, Stops(t, name)), t, up, saved)
            == w.(live := w.live - {name}, rows := rows, file := if saved then rows else w.file,
                  tasks := w.tasks[t := Ended])
  {
    var taken := Take(w, Stops(t, name));
    assert taken == w.(live := w.live - {name}, tasks := w.tasks[t := Taken(name)]);
    var marked := Go(taken, t, up);
    assert marked.tasks[t := Ended] == w.tasks[t := Ended];
    SavedAlone(marked, t, up, saved);
  }

  lemma DetachAlone(w: World, r: Registry, t: nat, name: string, up: bool)
    requires Shows(w, r) && t !in w.tasks
    ensures var v := Alone(Take(w, Detaches(t, name)), t, up, r.saved(r.saves));
            Shows(v, r.Detach(name)) && v.tasks == w.tasks[t := Ended]
  {
    var dropped := Go(Take(w, Detaches(t, name)), t, up);
    assert dropped.tasks[t := Ended] == w.tasks[t := Ended];
    if dropped.tasks[t].Unsaved? {
      SavedAlone(dropped, t, up, r.saved(r.saves));
    }
  }

  lemma AttachAlone(w: World, r: Registry, t: nat, a: Runs.Attach, up: bool)
    requires Shows(w, r) && t in w.tasks && w.tasks[t] == Spent(a)
    ensures var v := Alone(w, t, up, r.saved(r.saves));
            Shows(v, if up then r.Attached(a.name, a.command, a.args) else r) && v.tasks == w.tasks[t := Ended]
  {
    if up {
      var marked := Go(Go(w, t, true), t, true);
      assert marked.tasks[t := Ended] == w.tasks[t := Ended];
      SavedAlone(marked, t, true, r.saved(r.saves));
    }
  }

  /** The rest of a start that was allowed. */
  lemma StartAlone(w: World, t: nat, up: bool, saved: bool)
    requires t in w.tasks && w.tasks[t].Allowed?
    ensures var task := w.tasks[t]; var v := Alone(w, t, up, saved);
            && v.tasks == w.tasks[t := Ended]
            && v.live == (if up then w.live[task.name := Child(task.row.command, task.row.args)] else w.live)
            && var rows := if up && !task.kind.ToolCall? && task.name in w.rows
                           then w.rows[task.name := w.rows[task.name].(connected := true, stopped := false)]
                           else w.rows;
            v.rows == rows && v.file == if up && !task.kind.ToolCall? && saved then rows else w.file
  {
    var inserted := Go(w, t, up);
    assert inserted.tasks[t := Ended] == w.tasks[t := Ended];
    if inserted.tasks[t].Inserted? {
      var marked := Go(inserted, t, up);
      assert marked.tasks[t := Ended] == w.tasks[t := Ended];
      SavedAlone(marked, t, up, saved);
    }
  }

  lemma LookAlone(w: World, r: Registry, t: nat, name: string, kind: Kind, up: bool)
    requires Shows(w, r) && t !in w.tasks
    ensures var v := Alone(Take(w, Looks(t, name, kind)), t, up, r.saved(r.saves));
            Shows(v, OneStep(r, Looks(t, name, kind), up)) && v.tasks == w.tasks[t := Ended]
  {
    var looked := Take(w, Looks(t, name, kind));
    if name !in w.live {
      var allowed := Go(looked, t, up);
      assert allowed.tasks[t := Ended] == w.tasks[t := Ended];
      if allowed.tasks[t].Allowed? {
        StartAlone(allowed, t, up, r.saved(r.saves));
      }
    }
  }

  /** Pruning and a restart are the same single steps here; a restart ends every command. */
  lemma PruneAndRestart(w: World, r: Registry, dead: set<string>)
    requires Shows(w, r)
    ensures Shows(Take(w, Prunes(dead)), r.Prune(dead)) && Take(w, Prunes(dead)).tasks == w.tasks
    ensures Shows(Take(w, Restarts), r.Restarted())
    ensures Take(w, Restarts).tasks == map[] && Take(w, Restarts).live == map[] && Take(w, Restarts).file == w.file
  {
  }

  /** A command that nothing comes in between is the single step of the registry, and ends. */
  lemma AloneIsOneStep(w: World, r: Registry, step: Step, up: bool)
    requires Shows(w, r) && Begins(w, step)
    ensures var v := Alone(Take(w, step), step.t, up, r.saved(r.saves));
            Shows(v, OneStep(r, step, up)) && v.tasks == w.tasks[step.t := Ended]
  {
    var saved := r.saved(r.saves);
    match step
    case Looks(t, name, kind) => LookAlone(w, r, t, name, kind, up);
    case Attaches(t, a) => AttachesAlone(w, r, t, a, up);
    case Stops(t, name) => StopsAlone(w, r, t, name, up);
    case Detaches(t, name) => DetachAlone(w, r, t, name, up);
    case SetsAutoStart(t, name, autoStart) => AutoStartAlone(w, r, t, name, autoStart, up);
  }

  lemma AttachesAlone(w: World, r: Registry, t: nat, a: Runs.Attach, up: bool)
    requires Shows(w, r) && t !in w.tasks
    ensures var v := Alone(Take(w, Attaches(t, a)), t, up, r.saved(r.saves));
            Shows(v, OneStep(r, Attaches(t, a), up)) && v.tasks == w.tasks[t := Ended]
  {
    var begun := Take(w, Attaches(t, a));
    assert begun.tasks[t := Ended] == w.tasks[t := Ended];
    match Runs.SanitizeName(a.name)
    case None =>
    case Some(name) => AttachAlone(begun, r, t, a.(name := name), up);
  }

  lemma StopsAlone(w: World, r: Registry, t: nat, name: string, up: bool)
    requires Shows(w, r) && t !in w.tasks
    ensures var v := Alone(Take(w, Stops(t, name)), t, up, r.saved(r.saves));
            Shows(v, r.Stop(name)) && v.tasks == w.tasks[t := Ended]
  {
    if name != NATIVE {
      if name in w.rows {
        StopAlone(w, t, name, up, r.saved(r.saves));
      } else {
        var taken := Take(w, Stops(t, name));
        assert Go(taken, t, up).tasks == w.tasks[t := Ended];
      }
    }
  }

  lemma AutoStartAlone(w: World, r: Registry, t: nat, name: string, autoStart: bool, up: bool)
    requires Shows(w, r) && t !in w.tasks
    ensures var v := Alone(Take(w, SetsAutoStart(t, name, autoStart)), t, up, r.saved(r.saves));
            Shows(v, r.SetAutoStart(name, autoStart)) && v.tasks == w.tasks[t := Ended]
  {
    var edited := Take(w, SetsAutoStart(t, name, autoStart));
    assert edited.tasks[t := Ended] == w.tasks[t := Ended];
    if name in w.rows {
      SavedAlone(edited, t, up, r.saved(r.saves));
    }
  }

  // ---------------------------------------------------------------- commands that meet

  /** The world with a start of `name` that was allowed and has not spawned its child yet. */
  function Starting(w: World, t: nat, name: string, kind: Kind): World {
    Take(Take(w, Looks(t, name, kind)), Goes(t, true))
  }

  lemma StartingIs(w: World, t: nat, name: string, kind: Kind)
    requires t !in w.tasks && name !in w.live && name in w.rows && Allows(kind, w.rows[name])
    ensures Starting(w, t, name, kind) == w.To(t, Allowed(name, kind, w.rows[name]))
  {
    var looked := Take(w, Looks(t, name, kind));
    assert Take(looked, Goes(t, true)).tasks == w.tasks[t := Allowed(name, kind, w.rows[name])];
  }

  /** A stop within a start that was allowed before: it is written, and in the end the child
      lives. After a tool call its row is stopped, after a refresh or a start of the user the
      stop is taken back. */
  lemma StartOutlivesStop(w: World, t: nat, u: nat, name: string, kind: Kind)
    requires t !in w.tasks && u !in w.tasks && t != u && name != NATIVE
    requires name in w.rows && Allows(kind, w.rows[name]) && name !in w.live
    ensures var stopped := Alone(Take(Starting(w, t, name, kind), Stops(u, name)), u, true, true);
            && name in stopped.file && stopped.file[name].stopped && t in stopped.tasks
            && var v := Alone(stopped, t, true, true);
            name in v.live && name in v.rows && v.file == v.rows && (v.rows[name].stopped <==> kind.ToolCall?)
  {
    var starting := Starting(w, t, name, kind);
    StartingIs(w, t, name, kind);
    StopAlone(starting, u, name, true, true);
    StartAlone(Alone(Take(starting, Stops(u, name)), u, true, true), t, true, true);
  }

  /** A stop within the write of another command, an auto-start edit of another server: both
      writes succeed, and the next start of the app finds the server not stopped. */
  lemma OlderCopyLosesStop(w: World, t: nat, u: nat, name: string, other: string)
    requires t !in w.tasks && u !in w.tasks && t != u && name != NATIVE
    requires other in w.rows && other != name && name in w.rows && LazyStartAllowed(w.rows[name])
    ensures var copied := Take(Take(w, SetsAutoStart(t, other, true)), Goes(t, true));
            var stopped := Alone(Take(copied, Stops(u, name)), u, true, true);
            t in stopped.tasks && var v := Alone(stopped, t, true, true);
            name in v.rows && v.rows[name].stopped && name in v.file && LazyStartAllowed(v.file[name])
  {
    var edited := Take(w, SetsAutoStart(t, other, true));
    var copied := Take(edited, Goes(t, true));
    assert copied.rows == edited.rows == w.rows[other := w.rows[other].(autoStart := true)];
    StopAlone(copied, u, name, true, true);
    var stopped := Alone(Take(copied, Stops(u, name)), u, true, true);
    assert stopped.tasks[t] == Saving(copied.rows);
    assert Alone(stopped, t, true, true) == Go(stopped, t, true);
  }

  // ---------------------------------------------------------------- whose command a child runs

  predicate Approved(name: string, command: string, args: seq<string>, spent: set<Runs.Attach>) {
    Runs.Attach(name, command, args) in spent
  }

  ghost predicate RowsApproved(rows: map<string, Row>, spent: set<Runs.Attach>) {
    forall name :: name in rows ==> Approved(name, rows[name].command, rows[name].args, spent)
  }

  ghost predicate TaskApproved(task: Task, spent: set<Runs.Attach>) {
    match task
    case Allowed(name, _, row) => Approved(name, row.command, row.args, spent)
    case Spent(a) => a in spent
    case AttachInserted(a) => a in spent
    case Saving(copy) => RowsApproved(copy, spent)
    case _ => true
  }

  /** Rows, children and whatever commands in flight hold come from attaches whose ticket was
      spent. */
  ghost predicate AllApproved(w: World) {
    && RowsApproved(w.rows, w.spent) && RowsApproved(w.file, w.spent)
    && (forall name :: name in w.live ==> Approved(name, w.live[name].command, w.live[name].args, w.spent))
    && (forall t :: t in w.tasks ==> TaskApproved(w.tasks[t], w.spent))
  }

  lemma GoKeepsApproved(w: World, t: nat, ok: bool)
    requires AllApproved(w) && t in w.tasks
    ensures AllApproved(Go(w, t, ok))
  {
    var v := Go(w, t, ok);
    assert TaskApproved(w.tasks[t], w.spent);
    GoKeepsRows(w, t, ok);
    assert v.tasks.Keys == w.tasks.Keys;
    assert forall u :: u in v.tasks && u != t ==> v.tasks[u] == w.tasks[u];
    assert TaskApproved(v.tasks[t], v.spent);
  }

  lemma GoKeepsRows(w: World, t: nat, ok: bool)
    requires AllApproved(w) && t in w.tasks
    ensures RowsApproved(Go(w, t, ok).rows, w.spent) && Go(w, t, ok).spent == w.spent
  {
    assert TaskApproved(w.tasks[t], w.spent);
    var rows := Go(w, t, ok).rows;
    forall name | name in rows ensures Approved(name, rows[name].command, rows[name].args, w.spent) {
      assert name in w.rows ==> Approved(name, w.rows[name].command, w.rows[name].args, w.spent);
    }
  }

  lemma MoreApproved(w: World, v: World, a: Runs.Attach, t: nat)
    requires AllApproved(w) && v == w.(spent := w.spent + {a}).To(t, Spent(a))
    ensures AllApproved(v)
  {
    forall u | u in v.tasks ensures TaskApproved(v.tasks[u], v.spent) {
      assert u != t ==> TaskApproved(w.tasks[u], w.spent);
      assert u != t && w.tasks[u].Saving? ==> RowsApproved(w.tasks[u].copy, v.spent);
    }
  }

  lemma EditKeepsApproved(w: World, v: World, t: nat)
    requires AllApproved(w) && v == w.(rows := v.rows).To(t, Unsaved) && v.rows.Keys == w.rows.Keys
    requires forall n :: n in v.rows ==> v.rows[n].command == w.rows[n].command && v.rows[n].args == w.rows[n].args
    ensures AllApproved(v)
  {
    forall n | n in v.rows ensures Approved(n, v.rows[n].command, v.rows[n].args, v.spent) {
      assert Approved(n, w.rows[n].command, w.rows[n].args, w.spent);
    }
  }

  lemma TakeKeepsApproved(w: World, step: Step)
    requires AllApproved(w)
    ensures AllApproved(Take(w, step))
  {
    var v := Take(w, step);
    match step
    case Goes(t, ok) =>
      if t in w.tasks {
        GoKeepsApproved(w, t, ok);
      }
    case Attaches(t, a) =>
      if t !in w.tasks && Runs.SanitizeName(a.name).Some? {
        MoreApproved(w, v, a.(name := Runs.SanitizeName(a.name).value), t);
      }
    case SetsAutoStart(t, name, _) =>
      if t !in w.tasks && name in w.rows {
        EditKeepsApproved(w, v, t);
      }
    case _ =>
  }

  /** However commands interleave, a child runs the command of an attach for its name whose
      ticket was spent. */
  lemma {:induction false} ChildrenWereAttached(w: World, steps: seq<Step>)
    requires AllApproved(w)
    ensures var v := After(w, steps);
            && AllApproved(v)
            && forall name :: name in v.live ==>
                 Runs.Attach(name, v.live[name].command, v.live[name].args) in v.spent
    decreases |steps|
  {
    if steps != [] {
      TakeKeepsApproved(w, steps[0]);
      ChildrenWereAttached(Take(w, steps[0]), steps[1..]);
    }
  }
}
