/** Claiming an ACP handle for one Session: prompts of any Sessions, interleaved at the
    places where a lock is released. */
module HandleClaim {
  import opened Basics
  import opened AcpAdmission

  datatype Handle = Handle(agent: string, provider: Option<string>, owner: Option<CanonicalOwner>, run: Option<string>)

  datatype ClaimError =
    | UnknownHandle | NoSession | BlankBinding | NoProviderSession | NotReady
    | OwnedByAnother | OtherWork | OtherBinding | TurnRefused

  // ---------------------------------------------------------------- the locked sections

  /** The checks on a copy of the entry, before the handle's own mutex is taken. */
  function CopyChecks(entry: Handle, session: string, requested: Option<string>): Option<ClaimError> {
    if entry.provider.None? || Trim(entry.provider.value) == "" then Some(NoProviderSession)
    else
      match entry.owner
      case Some(owner) =>
        if owner.session != session then Some(OwnedByAnother)
        else if owner.work != CanonicalWorkId(session) then Some(OtherWork)
        else if requested.Some? && owner.binding != requested.value then Some(OtherBinding)
        else None
      case None =>
        if requested.Some? && requested.value != CanonicalBindingId(session, CanonicalWorkId(session), entry.agent)
        then Some(OtherBinding) else None
  }

  /** The handle table, and every owner a handle id was ever given. Ids are never reused. */
  datatype Table = Table(handles: map<string, Handle>, launched: nat, claims: map<string, CanonicalOwner>) {

    /** A new handle has no owner and a new id. */
    function Launch(agent: string, provider: Option<string>): Table {
      this.(handles := handles[HandleId(launched + 1) := Handle(agent, provider, None, None)], launched := launched + 1)
    }

    function Copy(id: string, session: string, requested: Option<string>): Option<ClaimError> {
      if id !in handles then Some(UnknownHandle) else CopyChecks(handles[id], session, requested)
    }

    function Recheck(id: string, session: string): Option<ClaimError> {
      if id !in handles then Some(UnknownHandle)
      else if handles[id].owner.Some? && handles[id].owner.value.session != session then Some(OwnedByAnother)
      else None
    }

    /** Publishes the owner of a prepared turn, unless the handle has another one. */
    function Claim(id: string, session: string, identity: TurnIdentity): (Table, Option<ClaimError>) {
      if id !in handles then (this, Some(UnknownHandle))
      else
        var entry := handles[id];
        if entry.owner.Some? && entry.owner.value.session != session then (this, Some(OwnedByAnother))
        else if entry.owner.Some? && entry.owner.value != identity.owner then (this, Some(OtherBinding))
        else (this.(handles := handles[id := entry.(owner := Some(identity.owner), run := Some(identity.run))],
                    claims := claims[id := identity.owner]), None)
    }

    function Shutdown(id: string): Table {
      this.(handles := handles - {id})
    }
  }

  function HandleId(n: nat): string {
    "acp-" + Decimal(n)
  }

  lemma HandleIdInjective(m: nat, n: nat)
    requires HandleId(m) == HandleId(n)
    ensures m == n
  {
    assert Decimal(m) == HandleId(m)[4..] && Decimal(n) == HandleId(n)[4..];
    DecimalInjective(m, n);
  }

  class HandleTable {
    var handles: map<string, Handle>
    var launched: nat
    ghost var claims: map<string, CanonicalOwner>

    ghost function Now(): Table reads this {
      Table(handles, launched, claims)
    }

    constructor ()
      ensures Now() == Table(map[], 0, map[])
    {
      handles, launched, claims := map[], 0, map[];
    }

    method Launch(agent: string, provider: Option<string>) returns (id: string)
      modifies this
      ensures Now() == old(Now()).Launch(agent, provider) && id == HandleId(launched)
    {
      launched := launched + 1;
      id := HandleId(launched);
      handles := handles[id := Handle(agent, provider, None, None)];
    }

    method Copy(id: string, session: string, requested: Option<string>) returns (error: Option<ClaimError>)
      ensures error == Now().Copy(id, session, requested)
      ensures error.None? <==>
              && id in handles && handles[id].provider.Some? && Trim(handles[id].provider.value) != ""
              && (match handles[id].owner
                  case Some(o) => o.session == session && o.work == session
                                  && (requested == None || requested == Some(o.binding))
                  case None => requested == None
                               || requested == Some("acp-binding:" + session + ":" + session + ":" + handles[id].agent))
      ensures error == Some(OwnedByAnother) <==>
              && id in handles && handles[id].provider.Some? && Trim(handles[id].provider.value) != ""
              && handles[id].owner.Some? && handles[id].owner.value.session != session
    {
      if id !in handles {
        return Some(UnknownHandle);
      }
      return CopyChecks(handles[id], session, requested);
    }

    method Recheck(id: string, session: string) returns (error: Option<ClaimError>)
      ensures error == Now().Recheck(id, session)
      ensures error.None? <==>
              id in handles && (handles[id].owner == None || handles[id].owner.value.session == session)
    {
      if id !in handles {
        return Some(UnknownHandle);
      }
      if handles[id].owner.Some? && handles[id].owner.value.session != session {
        return Some(OwnedByAnother);
      }
      return None;
    }

    method Claim(id: string, session: string, identity: TurnIdentity) returns (error: Option<ClaimError>)
      modifies this
      ensures (Now(), error) == old(Now()).Claim(id, session, identity)
      ensures identity.owner.session == session ==>
                (error.None? <==>
                 id in old(handles)
                 && (old(handles)[id].owner == None || old(handles)[id].owner == Some(identity.owner)))
      ensures error.Some? ==> handles == old(handles)
      ensures error.None? && id in old(handles) ==>
                handles == old(handles)[id := old(handles)[id].(owner := Some(identity.owner),
                                                                run := Some(identity.run))]
    {
      if id !in handles {
        return Some(UnknownHandle);
      }
      var entry := handles[id];
      if entry.owner.Some? {
        if entry.owner.value.session != session {
          return Some(OwnedByAnother);
        }
        if entry.owner.value != identity.owner {
          return Some(OtherBinding);
        }
      }
      handles := handles[id := entry.(owner := Some(identity.owner), run := Some(identity.run))];
      claims := claims[id := identity.owner];
      return None;
    }

    method Shutdown(id: string)
      modifies this
      ensures Now() == old(Now()).Shutdown(id)
    {
      handles := handles - {id};
    }
  }

  // ---------------------------------------------------------------- prompts as processes

  /** Where a prompt is between two locked sections. From `Inside` on it holds the mutex of
      its handle; `AtProvider` is the provider call. */
  datatype Place =
    | Copied
    | Inside
    | Prepared(identity: TurnIdentity)
    | Claimed(identity: TurnIdentity)
    | AtProvider(identity: TurnIdentity)
    | Done
    | Stopped(error: ClaimError)
  {
    predicate HoldsMutex() {
      Inside? || Prepared? || Claimed? || AtProvider?
    }
  }

  datatype Prompt = Prompt(handle: string, session: string, requested: Option<string>, place: Place)

  datatype World = World(table: Table, prompts: map<nat, Prompt>)

  datatype Move =
    | Launches(agent: string, provider: Option<string>)
    | Shuts(handle: string)
    | Enters(p: nat, handle: string, session: string, requested: Option<string>, ready: bool)
    | TakesMutex(p: nat)
    | Prepares(p: nat, prepared: Option<TurnIdentity>)
    | Claims(p: nat)
    | Calls(p: nat)
    | Returns(p: nat)

  /** The inputs are trimmed; a blank Session and a blank requested binding are refused. */
  function Entered(t: Table, handle: string, session: string, requested: Option<string>, ready: bool): Prompt {
    var s := Trim(session);
    if s == "" then Prompt(handle, s, None, Stopped(NoSession))
    else if requested.Some? && Trim(requested.value) == "" then Prompt(handle, s, None, Stopped(BlankBinding))
    else
      var wanted := if requested.Some? then Some(Trim(requested.value)) else None;
      if handle in t.handles && !ready then Prompt(handle, s, wanted, Stopped(NotReady))
      else
        match t.Copy(handle, s, wanted)
        case Some(error) => Prompt(handle, s, wanted, Stopped(error))
        case None => Prompt(handle, s, wanted, Copied)
  }

  predicate MutexFree(w: World, handle: string) {
    forall p :: p in w.prompts && w.prompts[p].handle == handle ==> !w.prompts[p].place.HoldsMutex()
  }

  /** A prepared turn is of the Session that asked for it, as preparing a turn promises. */
  predicate Fits(session: string, identity: TurnIdentity) {
    identity.owner.session == session && identity.owner.work == CanonicalWorkId(session)
  }

  function At(w: World, p: nat, place: Place): World
    requires p in w.prompts
  {
    w.(prompts := w.prompts[p := w.prompts[p].(place := place)])
  }

  function Make(w: World, move: Move): World {
    match move
    case Launches(agent, provider) => w.(table := w.table.Launch(agent, provider))
    case Shuts(handle) => w.(table := w.table.Shutdown(handle))
    case Enters(p, handle, session, requested, ready) =>
      if p in w.prompts then w else w.(prompts := w.prompts[p := Entered(w.table, handle, session, requested, ready)])
    case TakesMutex(p) =>
      if p !in w.prompts || !w.prompts[p].place.Copied? || !MutexFree(w, w.prompts[p].handle) then w
      else
        (match w.table.Recheck(w.prompts[p].handle, w.prompts[p].session)
         case Some(error) => At(w, p, Stopped(error))
         case None => At(w, p, Inside))
    case Prepares(p, prepared) =>
      if p !in w.prompts || !w.prompts[p].place.Inside? then w
      else if prepared.None? || !Fits(w.prompts[p].session, prepared.value) then At(w, p, Stopped(TurnRefused))
      else if w.prompts[p].requested.Some? && prepared.value.owner.binding != w.prompts[p].requested.value
        then At(w, p, Stopped(OtherBinding))
      else At(w, p, Prepared(prepared.value))
    case Claims(p) =>
      if p !in w.prompts || !w.prompts[p].place.Prepared? then w
      else
        var identity := w.prompts[p].place.identity;
        var (table, error) := w.table.Claim(w.prompts[p].handle, w.prompts[p].session, identity);
        At(w.(table := table), p, if error.Some? then Stopped(error.value) else Claimed(identity))
    case Calls(p) =>
      if p !in w.prompts || !w.prompts[p].place.Claimed? then w
      else if w.prompts[p].handle !in w.table.handles then At(w, p, Stopped(UnknownHandle))
      else At(w, p, AtProvider(w.prompts[p].place.identity))
    case Returns(p) =>
      if p !in w.prompts || !w.prompts[p].place.AtProvider? then w else At(w, p, Done)
  }

  // ---------------------------------------------------------------- the invariant

  /** The owner in the table is the one recorded claim of that id, and a claim is of a
      handle id that was launched. */
  ghost predicate TableInv(t: Table) {
    && (forall id :: id in t.handles ==> t.handles[id].owner == Get(t.claims, id))
    && (forall n: nat :: n > t.launched ==> HandleId(n) !in t.handles && HandleId(n) !in t.claims)
    && (forall id :: id in t.claims ==> t.claims[id].work == CanonicalWorkId(t.claims[id].session))
  }

  ghost predicate PromptInv(t: Table, p: Prompt) {
    && (p.place.Prepared? ==> Fits(p.session, p.place.identity))
    && (p.place.Claimed? || p.place.AtProvider? ==>
          Fits(p.session, p.place.identity) && Get(t.claims, p.handle) == Some(p.place.identity.owner)
          && (p.requested.Some? ==> p.place.identity.owner.binding == p.requested.value))
    && (p.place.Prepared? && p.requested.Some? ==> p.place.identity.owner.binding == p.requested.value)
  }

  ghost predicate OneInside(prompts: map<nat, Prompt>) {
    forall p, q :: p in prompts && q in prompts && Rivals(prompts[p], prompts[q]) ==> p == q
  }

  predicate Rivals(a: Prompt, b: Prompt) {
    a.handle == b.handle && a.place.HoldsMutex() && b.place.HoldsMutex()
  }

  ghost predicate Inv(w: World) {
    TableInv(w.table) && OneInside(w.prompts) && forall p :: p in w.prompts ==> PromptInv(w.table, w.prompts[p])
  }

  /** Claims are only added: an owner, once set, is never another. */
  ghost predicate ClaimsKept(a: Table, b: Table) {
    forall id :: id in a.claims ==> id in b.claims && b.claims[id] == a.claims[id]
  }

  lemma ClaimKeeps(t: Table, id: string, session: string, identity: TurnIdentity)
    requires TableInv(t) && Fits(session, identity)
    ensures var (u, error) := t.Claim(id, session, identity);
            TableInv(u) && ClaimsKept(t, u) && (error.None? ==> Get(u.claims, id) == Some(identity.owner))
  {
    var (u, error) := t.Claim(id, session, identity);
    if error.None? {
      forall n: nat | n > u.launched ensures HandleId(n) !in u.handles && HandleId(n) !in u.claims {
        assert HandleId(n) !in t.handles;
      }
    }
  }

  lemma LaunchKeeps(t: Table, agent: string, provider: Option<string>)
    requires TableInv(t)
    ensures var u := t.Launch(agent, provider); TableInv(u) && ClaimsKept(t, u)
  {
    var u := t.Launch(agent, provider);
    forall n: nat | n > u.launched ensures HandleId(n) !in u.handles && HandleId(n) !in u.claims {
      if HandleId(n) == HandleId(t.launched + 1) {
        HandleIdInjective(n, t.launched + 1);
      }
    }
  }

  /** One prompt moved, the table kept its claims, and no taken mutex was taken again. */
  lemma Moved(w: World, t: Table, p: nat, me: Prompt)
    requires Inv(w) && TableInv(t) && ClaimsKept(w.table, t) && PromptInv(t, me)
    requires me.place.HoldsMutex() ==>
               (p in w.prompts && w.prompts[p].place.HoldsMutex()
                   && w.prompts[p].handle == me.handle) || MutexFree(w, me.handle)
    ensures Inv(World(t, w.prompts[p := me]))
  {
    var later := w.prompts[p := me];
    forall a, b | a in later && b in later && Rivals(later[a], later[b]) ensures a == b {
      if a != p && b != p {
        assert Rivals(w.prompts[a], w.prompts[b]);
      } else if p in w.prompts && w.prompts[p].place.HoldsMutex() && w.prompts[p].handle == me.handle {
        assert Rivals(w.prompts[a], w.prompts[b]);
      }
    }
    forall q | q in later ensures PromptInv(t, later[q]) {
      assert q != p ==> PromptInv(w.table, w.prompts[q]);
    }
  }

  lemma TableMoved(w: World, t: Table)
    requires Inv(w) && TableInv(t) && ClaimsKept(w.table, t)
    ensures Inv(World(t, w.prompts))
  {
    forall q | q in w.prompts ensures PromptInv(t, w.prompts[q]) {
      assert PromptInv(w.table, w.prompts[q]);
    }
  }

  lemma MakeKeeps(w: World, move: Move)
    requires Inv(w)
    ensures Inv(Make(w, move)) && ClaimsKept(w.table, Make(w, move).table)
  {
    match move
    case Launches(agent, provider) =>
      LaunchKeeps(w.table, agent, provider);
      TableMoved(w, w.table.Launch(agent, provider));
    case Shuts(handle) =>
      TableMoved(w, w.table.Shutdown(handle));
    case Enters(p, handle, session, requested, ready) =>
      if p !in w.prompts {
        Moved(w, w.table, p, Entered(w.table, handle, session, requested, ready));
      }
    case _ =>
      PromptMoveKeeps(w, move);
  }

  lemma PromptMoveKeeps(w: World, move: Move)
    requires Inv(w) && (move.TakesMutex? || move.Prepares? || move.Claims? || move.Calls? || move.Returns?)
    ensures Inv(Make(w, move)) && ClaimsKept(w.table, Make(w, move).table)
  {
    var p := move.p;
    if p in w.prompts && Make(w, move) != w {
      var v := Make(w, move);
      var me := w.prompts[p];
      assert PromptInv(w.table, me);
      if move.Claims? {
        ClaimKeeps(w.table, me.handle, me.session, me.place.identity);
      }
      Moved(w, v.table, p, v.prompts[p]);
      assert v == World(v.table, w.prompts[p := v.prompts[p]]);
    }
  }

  // ---------------------------------------------------------------- the result

  function Play(moves: seq<Move>): World {
    if moves == [] then World(Table(map[], 0, map[]), map[]) else Make(Play(moves[..|moves| - 1]), moves[|moves| - 1])
  }

  lemma {:induction false} PlayKeeps(moves: seq<Move>)
    ensures Inv(Play(moves))
  {
    if moves != [] {
      PlayKeeps(moves[..|moves| - 1]);
      MakeKeeps(Play(moves[..|moves| - 1]), moves[|moves| - 1]);
    }
  }

  lemma PlayLast(moves: seq<Move>, last: Move)
    ensures Play(moves + [last]) == Make(Play(moves), last)
  {
    assert (moves + [last])[..|moves|] == moves;
  }

  lemma OneMoreMove(start: Table, moves: seq<Move>, last: Move)
    requires ClaimsKept(start, Play(moves).table)
    ensures ClaimsKept(start, Play(moves + [last]).table)
  {
    PlayLast(moves, last);
    PlayKeeps(moves);
    MakeKeeps(Play(moves), last);
  }

  lemma {:induction false} ClaimsLast(before: seq<Move>, after: seq<Move>)
    ensures ClaimsKept(Play(before).table, Play(before + after).table)
    decreases |after|
  {
    if after == [] {
      assert before + after == before;
    } else {
      var n := |after| - 1;
      ClaimsLast(before, after[..n]);
      OneMoreMove(Play(before).table, before + after[..n], after[n]);
      assert before + after == before + after[..n] + [after[n]];
    }
  }

  /** Write once: whatever happens after some moment, an owner a handle had at that moment is
      still its owner, as long as the handle lives. */
  lemma OwnerIsWriteOnce(before: seq<Move>, after: seq<Move>, id: string)
    requires id in Play(before).table.handles && Play(before).table.handles[id].owner.Some?
    ensures id in Play(before + after).table.handles ==>
              Play(before + after).table.handles[id].owner == Play(before).table.handles[id].owner
  {
    PlayKeeps(before);
    PlayKeeps(before + after);
    ClaimsLast(before, after);
  }

  /** A prompt at the provider: its handle was claimed for its own Session, Work and binding
      (the one it asked for, if it asked), and no other prompt is inside that handle. */
  lemma ProviderOnlyAfterClaim(moves: seq<Move>, p: nat, q: nat)
    requires var w := Play(moves); p in w.prompts && w.prompts[p].place.AtProvider?
    ensures var w := Play(moves); var me := w.prompts[p];
            && me.handle in w.table.claims && w.table.claims[me.handle] == me.place.identity.owner
            && w.table.claims[me.handle].session == me.session && w.table.claims[me.handle].work == me.session
            && (me.requested.Some? ==> w.table.claims[me.handle].binding == me.requested.value)
            && (q in w.prompts && q != p && w.prompts[q].handle == me.handle ==> !w.prompts[q].place.HoldsMutex())
  {
    PlayKeeps(moves);
    var w := Play(moves);
    assert PromptInv(w.table, w.prompts[p]);
    if q in w.prompts && q != p && w.prompts[q].handle == w.prompts[p].handle && w.prompts[q].place.HoldsMutex() {
      assert Rivals(w.prompts[p], w.prompts[q]);
    }
  }

  // ---------------------------------------------------------------- who gets in

  /** A handle that can be prompted and is owned. */
  predicate OwnedHandle(w: World, id: string) {
    && id in w.table.handles && w.table.handles[id].owner.Some?
    && w.table.handles[id].provider.Some? && Trim(w.table.handles[id].provider.value) != ""
  }

  function Coming(w: World, p: nat, id: string, session: string, requested: Option<string>,
                  identity: TurnIdentity): World
  {
    var entered := Make(w, Enters(p, id, session, requested, true));
    Make(Make(Make(Make(entered, TakesMutex(p)), Prepares(p, Some(identity))), Claims(p)), Calls(p))
  }

  /** The owner of a handle is let in again, with any Run of its own, once nobody else is inside. */
  lemma OwnerComesBack(moves: seq<Move>, p: nat, id: string, requested: Option<string>, run: string)
    requires var w := Play(moves); OwnedHandle(w, id) && p !in w.prompts && MutexFree(w, id)
    requires var o := Play(moves).table.handles[id].owner.value;
             && o.session != "" && Trim(o.session) == o.session
             && (requested.Some? ==> requested.value == o.binding && o.binding != "" && Trim(o.binding) == o.binding)
    ensures var w := Play(moves); var o := w.table.handles[id].owner.value;
            var v := Coming(w, p, id, o.session, requested, TurnIdentity(o, run));
            && p in v.prompts && v.prompts[p].place == AtProvider(TurnIdentity(o, run))
            && v.table == w.table.(handles := w.table.handles[id := w.table.handles[id].(run := Some(run))])
  {
    PlayKeeps(moves);
    var w := Play(moves);
    var o := w.table.handles[id].owner.value;
    var wanted := if requested.Some? then Some(Trim(requested.value)) else None;
    var copied := Make(w, Enters(p, id, o.session, requested, true));
    assert copied.prompts == w.prompts[p := Prompt(id, o.session, wanted, Copied)];
    assert MutexFree(copied, id);
    var inside := Make(copied, TakesMutex(p));
    var prepared := Make(inside, Prepares(p, Some(TurnIdentity(o, run))));
    assert prepared.prompts[p] == Prompt(id, o.session, wanted, Prepared(TurnIdentity(o, run)));
    var claimed := Make(prepared, Claims(p));
    assert claimed.table.claims == w.table.claims;
  }

  /** Everybody else is told so at the door. */
  lemma OthersAreRefused(w: World, p: nat, id: string, session: string, requested: Option<string>)
    requires OwnedHandle(w, id) && p !in w.prompts && Trim(session) != ""
    requires requested.Some? ==> Trim(requested.value) != ""
    requires w.table.handles[id].owner.value.session != Trim(session)
    ensures var v := Make(w, Enters(p, id, session, requested, true));
            v.table == w.table && p in v.prompts && v.prompts[p].place == Stopped(OwnedByAnother)
  {
  }

  // ---------------------------------------------------------------- where a prompt stops

  /** What the checks at the door come to, in the order they are made. */
  lemma EntersExactly(w: World, p: nat, id: string, session: string, requested: Option<string>, ready: bool)
    requires p !in w.prompts
    ensures var v := Make(w, Enters(p, id, session, requested, ready)); var s := Trim(session);
            var wanted := if requested == None then None else Some(Trim(requested.value));
            && v.table == w.table && p in v.prompts && v.prompts == w.prompts[p := v.prompts[p]]
            && v.prompts[p].handle == id && v.prompts[p].session == s
            && var place := v.prompts[p].place;
            && (place == Stopped(NoSession) <==> s == "")
            && (place == Stopped(BlankBinding) <==> s != "" && wanted == Some(""))
            && (s != "" && wanted != Some("") ==>
                && v.prompts[p].requested == wanted
                && (place == Stopped(NotReady) <==> id in w.table.handles && !ready)
                && (place == Stopped(UnknownHandle) <==> id !in w.table.handles)
                && (place == Copied <==>
                    && id in w.table.handles && ready && w.table.handles[id].provider.Some?
                    && Trim(w.table.handles[id].provider.value) != ""
                    && (match w.table.handles[id].owner
                        case Some(o) => o.session == s && o.work == s && (wanted == None || wanted == Some(o.binding))
                        case None =>
                          wanted == None
                          || wanted == Some("acp-binding:" + s + ":" + s + ":" + w.table.handles[id].agent))))
  {
  }

  /** Behind the mutex the owner is looked at once more, and a handle that was shut down is
      found out there and before the provider is called; a prompt that returns is done. */
  lemma LaterChecksExactly(w: World, p: nat)
    requires p in w.prompts
    ensures var me := w.prompts[p]; var handles := w.table.handles; var v := Make(w, TakesMutex(p));
            me.place.Copied? && MutexFree(w, me.handle) ==>
              v.table == w.table && p in v.prompts
              && (v.prompts[p].place == Inside <==>
                  me.handle in handles
                  && (handles[me.handle].owner == None || handles[me.handle].owner.value.session == me.session))
              && (v.prompts[p].place == Inside || v.prompts[p].place.Stopped?)
    ensures var me := w.prompts[p]; var v := Make(w, Calls(p));
            me.place.Claimed? ==>
              v.table == w.table && p in v.prompts
              && v.prompts[p].place == if me.handle in w.table.handles then AtProvider(me.place.identity)
                                       else Stopped(UnknownHandle)
    ensures w.prompts[p].place.AtProvider? ==>
              Make(w, Returns(p)).prompts == w.prompts[p := w.prompts[p].(place := Done)]
    ensures forall id :: Make(w, Shuts(id)).table.handles == w.table.handles - {id}
  {
  }
}
