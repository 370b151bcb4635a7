/** The registry of attached MCP servers and the map of their live children. */
module McpLifecycle {
  import opened Basics
  import opened GuardModel

  datatype Row = Row(command: string, args: seq<string>, autoStart: bool, stopped: bool, connected: bool)

  datatype Child = Child(command: string, args: seq<string>)

  predicate LazyStartAllowed(row: Row) {
    Trim(row.command) != "" && !row.stopped && row.autoStart
  }

  predicate ExplicitStartAllowed(row: Row) {
    Trim(row.command) != ""
  }

  /** `saved(n)` says whether the n-th write of the registry file succeeds; a failed one is
      ignored and leaves the file as it was. */
  datatype Registry = Registry(rows: map<string, Row>, live: map<string, Child>, file: map<string, Row>, saves: nat,
                               saved: nat -> bool) {

    function Save(): Registry {
      if saved(saves) then this.(file := rows, saves := saves + 1) else this.(saves := saves + 1)
    }

    /** The end of an attach whose child answered the handshake. */
    function Attached(name: string, command: string, args: seq<string>): Registry {
      this.(live := live[name := Child(command, args)],
            rows := rows[name := Row(command, args, true, false, true)]).Save()
    }

    /** `up` says whether spawn and handshake succeed. */
    function BringUp(name: string, explicit: bool, up: bool): (Registry, bool) {
      if name in live then (this, true)
      else if name !in rows || !up then (this, false)
      else if !(if explicit then ExplicitStartAllowed(rows[name]) else LazyStartAllowed(rows[name])) then (this, false)
      else
        var row := rows[name];
        (this.(live := live[name := Child(row.command, row.args)],
               rows := rows[name := row.(connected := true, stopped := false)]).Save(), true)
    }

    function BringUpAll(names: seq<string>, up: set<string>): Registry {
      if names == [] then this
      else BringUpAll(names[..|names| - 1], up).BringUp(names[|names| - 1], false, names[|names| - 1] in up).0
    }

    /** The first tool call of a server that is down starts its child but leaves the row. */
    function LazyCall(name: string, up: bool): (Registry, bool) {
      if name in live then (this, true)
      else if name !in rows || !LazyStartAllowed(rows[name]) || !up then (this, false)
      else (this.(live := live[name := Child(rows[name].command, rows[name].args)]), true)
    }

    function Stop(name: string): Registry {
      if name == NATIVE then this
      else
        var down := this.(live := live - {name});
        if name !in rows then down
        else down.(rows := rows[name := rows[name].(stopped := true, connected := false)]).Save()
    }

    function Detach(name: string): Registry {
      var gone := this.(live := live - {name}, rows := rows - {name});
      if name in live || name in rows then gone.Save() else gone
    }

    function SetAutoStart(name: string, autoStart: bool): Registry {
      if name in rows then this.(rows := rows[name := rows[name].(autoStart := autoStart)]).Save() else this
    }

    function Prune(dead: set<string>): Registry {
      this.(live := live - dead)
    }

    /** The rows come back from the file, the children are gone. */
    function Restarted(): Registry {
      this.(live := map[], rows := map name | name in file :: file[name].(connected := false))
    }
  }

  const NATIVE := "EveryAIOS native (built-in)"

  class McpRegistry {
    var rows: map<string, Row>
    var live: map<string, Child>
    var file: map<string, Row>
    var saves: nat
    const saved: nat -> bool

    ghost function Now(): Registry reads this {
      Registry(rows, live, file, saves, saved)
    }

    constructor (saved: nat -> bool)
      ensures Now() == Registry(map[], map[], map[], 0, saved)
    {
      rows, live, file, saves := map[], map[], map[], 0;
      this.saved := saved;
    }

    method Save()
      modifies this
      ensures Now() == old(Now()).Save()
    {
      if saved(saves) {
        file := rows;
      }
      saves := saves + 1;
    }

    method Attached(name: string, command: string, args: seq<string>)
      modifies this
      ensures Now() == old(Now()).Attached(name, command, args)
    {
      live := live[name := Child(command, args)];
      rows := rows[name := Row(command, args, true, false, true)];
      Save();
    }

    method BringUp(name: string, explicit: bool, up: bool) returns (ok: bool)
      modifies this
      ensures (Now(), ok) == old(Now()).BringUp(name, explicit, up)
      ensures ok <==> name in old(live)
                      || (&& up && name in old(rows) && Trim(old(rows)[name].command) != ""
                          && (explicit || (!old(rows)[name].stopped && old(rows)[name].autoStart)))
      ensures live == if ok && name !in old(live)
                      then old(live)[name := Child(old(rows)[name].command, old(rows)[name].args)] else old(live)
      ensures ok && name !in old(live) ==> name in rows && rows[name].connected && !rows[name].stopped
    {
      if name in live {
        return true;
      }
      if name !in rows {
        return false;
      }
      var row := rows[name];
      var allowed := if explicit then ExplicitStartAllowed(row) else LazyStartAllowed(row);
      if !allowed || !up {
        return false;
      }
      live := live[name := Child(row.command, row.args)];
      rows := rows[name := row.(connected := true, stopped := false)];
      Save();
      return true;
    }

    method LazyCall(name: string, up: bool) returns (ok: bool)
      modifies this
      ensures (Now(), ok) == old(Now()).LazyCall(name, up)
      ensures ok <==> name in old(live)
                      || (&& up && name in rows && Trim(rows[name].command) != ""
                          && !rows[name].stopped && rows[name].autoStart)
      ensures live == if ok && name !in old(live) then old(live)[name := Child(rows[name].command, rows[name].args)]
                      else old(live)
      ensures rows == old(rows) && file == old(file)
    {
      if name in live {
        return true;
      }
      if name !in rows || !LazyStartAllowed(rows[name]) || !up {
        return false;
      }
      live := live[name := Child(rows[name].command, rows[name].args)];
      return true;
    }

    method Stop(name: string)
      modifies this
      ensures Now() == old(Now()).Stop(name)
      ensures name != NATIVE ==>
                && live == old(live) - {name}
                && rows == if name in old(rows)
                           then old(rows)[name := old(rows)[name].(stopped := true, connected := false)]
                           else old(rows)
      ensures name == NATIVE ==> live == old(live) && rows == old(rows) && file == old(file)
    {
      if name == NATIVE {
        return;
      }
      live := live - {name};
      if name !in rows {
        return;
      }
      rows := rows[name := rows[name].(stopped := true, connected := false)];
      Save();
    }

    method Detach(name: string)
      modifies this
      ensures Now() == old(Now()).Detach(name)
      ensures live == old(live) - {name} && rows == old(rows) - {name}
      ensures name in old(rows) && saved(old(saves)) ==> file == old(rows) - {name}
    {
      var known := name in live || name in rows;
      live := live - {name};
      rows := rows - {name};
      if known {
        Save();
      }
    }

    method SetAutoStart(name: string, autoStart: bool)
      modifies this
      ensures Now() == old(Now()).SetAutoStart(name, autoStart)
      ensures name in old(rows) ==> rows == old(rows)[name := old(rows)[name].(autoStart := autoStart)]
      ensures name in old(rows) && saved(old(saves)) ==> file == rows
    {
      if name in rows {
        rows := rows[name := rows[name].(autoStart := autoStart)];
        Save();
      }
    }

    /** Drops the dead children, then starts every row that may be started lazily and has no
        child, in some order. */
    method Refresh(dead: set<string>, up: set<string>) returns (ghost order: seq<string>)
      modifies this
      ensures var pruned := old(Now()).Prune(dead);
              Now() == pruned.BringUpAll(order, up)
              && forall name :: name in order <==>
                 && name in pruned.rows && name !in pruned.live && Trim(pruned.rows[name].command) != ""
                 && !pruned.rows[name].stopped && pruned.rows[name].autoStart
    {
      live := live - dead;
      ghost var pruned := Now();
      var pending := set name | name in rows && name !in live && LazyStartAllowed(rows[name]);
      order := [];
      var left := pending;
      while left != {}
        invariant left <= pending
        invariant forall name :: name in order <==> name in pending && name !in left
        invariant Now() == pruned.BringUpAll(order, up)
        decreases |left|
      {
        var name :| name in left;
        var _ := BringUp(name, false, name in up);
        assert (order + [name])[..|order|] == order;
        order := order + [name];
        left := left - {name};
      }
    }

    method Restart()
      modifies this
      ensures Now() == old(Now()).Restarted()
      ensures live == map[] && rows.Keys == file.Keys && file == old(file)
      ensures forall name :: name in rows ==> rows[name] == file[name].(connected := false)
    {
      live := map[];
      rows := map name | name in file :: file[name].(connected := false);
    }
  }
}
