/** The shared stack of file snapshots: pushed before every mutation, taken back by session
    (the control channel) or by path (the file view). */
module UndoStack {
  import opened Basics

  type Bytes = seq<int>

  /** `before` is the content before the mutation; `None` stands for a file that did not exist. */
  datatype FileUndo = FileUndo(session: string, path: string, before: Option<Bytes>)

  datatype Files = Files(contents: map<string, Bytes>, stack: seq<FileUndo>) {

    function Put(path: string, content: Option<Bytes>): Files {
      if content.Some? then this.(contents := contents[path := content.value]) else this.(contents := contents - {path})
    }

    /** A mutation: the snapshot first, then the new content. */
    function Mutate(session: string, path: string, content: Option<Bytes>): Files {
      this.(stack := stack + [FileUndo(session, path, Get(contents, path))]).Put(path, content)
    }

    /** Takes the snapshot off the stack and puts it back; if the file cannot be written the
        snapshot is gone all the same. */
    function Undo(i: nat, writable: bool): Files
      requires i < |stack|
    {
      var popped := this.(stack := stack[..i] + stack[i + 1..]);
      if writable then popped.Put(stack[i].path, stack[i].before) else popped
    }
  }

  predicate OfSession(e: FileUndo, session: string) {
    session == "" || e.session == session
  }

  /** `i` is the position of the newest snapshot of the session, the empty one meaning any. */
  predicate NewestOfSession(stack: seq<FileUndo>, session: string, i: nat) {
    i < |stack| && OfSession(stack[i], session) && forall k :: i < k < |stack| ==> !OfSession(stack[k], session)
  }

  predicate NewestOfPath(stack: seq<FileUndo>, path: string, i: nat) {
    i < |stack| && stack[i].path == path && forall k :: i < k < |stack| ==> stack[k].path != path
  }

  class Workspace {
    var contents: map<string, Bytes>
    var stack: seq<FileUndo>

    ghost function Now(): Files reads this {
      Files(contents, stack)
    }

    constructor (contents: map<string, Bytes>)
      ensures Now() == Files(contents, [])
    {
      this.contents := contents;
      stack := [];
    }

    method Put(path: string, content: Option<Bytes>)
      modifies this`contents
      ensures Now() == old(Now()).Put(path, content)
    {
      if content.Some? {
        contents := contents[path := content.value];
      } else {
        contents := contents - {path};
      }
    }

    method SnapshotFile(session: string, path: string)
      modifies this`stack
      ensures stack == old(stack) + [FileUndo(session, path, Get(contents, path))]
    {
      stack := stack + [FileUndo(session, path, Get(contents, path))];
    }

    method Mutate(session: string, path: string, content: Option<Bytes>)
      modifies this
      ensures Now() == old(Now()).Mutate(session, path, content)
    {
      SnapshotFile(session, path);
      Put(path, content);
    }

    /** The file part of a session undo. A failed write is an error, a failed removal is not. */
    method UndoSession(session: string, writable: bool) returns (restored: Option<string>, failed: bool)
      modifies this
      ensures restored.None? ==>
                Now() == old(Now())
                && (old(stack) != [] ==> session != "")
                && forall k :: 0 <= k < |old(stack)| ==> old(stack)[k].session != session
      ensures restored.Some? ==> exists i: nat :: NewestOfSession(old(stack), session, i)
                                             && Now() == old(Now()).Undo(i, writable)
                                                 && restored.value == old(stack)[i].path
                                             && failed == (!writable && old(stack)[i].before.Some?)
      ensures restored.Some? ==>
                exists i: nat :: i < |old(stack)| && old(stack)[i].path == restored.value
                  && stack == old(stack)[..i] + old(stack)[i + 1..]
                  && (session == "" ==> i == |old(stack)| - 1)
                  && (session == "" || old(stack)[i].session == session)
                  && (session == "" || forall k :: i < k < |old(stack)| ==> old(stack)[k].session != session)
    {
      var i := |stack|;
      while i > 0
        invariant 0 <= i <= |stack| && forall k :: i <= k < |stack| ==> !OfSession(stack[k], session)
      {
        i := i - 1;
        if OfSession(stack[i], session) {
          ghost var was := stack;
          assert NewestOfSession(was, session, i);
          restored := Some(stack[i].path);
          failed := !writable && stack[i].before.Some?;
          TakeBack(i, writable);
          forall k | i < k < |was| ensures was[k].session != session {
            assert !OfSession(was[k], session);
          }
          assert i < |was| - 1 ==> !OfSession(was[|was| - 1], session);
          assert stack == was[..i] + was[i + 1..] && was[i].path == restored.value;
          return;
        }
      }
      forall k | 0 <= k < |stack| ensures stack[k].session != session {
        assert !OfSession(stack[k], session);
      }
      assert stack != [] ==> !OfSession(stack[0], session);
      restored, failed := None, false;
    }

    /** The restore of one path. */
    method RestorePath(path: string, writable: bool) returns (found: bool, failed: bool)
      modifies this
      ensures failed == (found && !writable)
      ensures !found ==> Now() == old(Now()) && forall k :: 0 <= k < |stack| ==> stack[k].path != path
      ensures found ==> exists i: nat :: NewestOfPath(old(stack), path, i) && Now() == old(Now()).Undo(i, writable)
    {
      var i := |stack|;
      while i > 0
        invariant 0 <= i <= |stack| && forall k :: i <= k < |stack| ==> stack[k].path != path
      {
        i := i - 1;
        if stack[i].path == path {
          ghost var was := stack;
          assert NewestOfPath(was, path, i);
          TakeBack(i, writable);
          return true, !writable;
        }
      }
      found, failed := false, false;
    }

    method TakeBack(i: nat, writable: bool)
      requires i < |stack|
      modifies this
      ensures Now() == old(Now()).Undo(i, writable)
    {
      var e := stack[i];
      stack := stack[..i] + stack[i + 1..];
      if writable {
        Put(e.path, e.before);
      }
    }
  }

  // ---------------------------------------------------------------- what undoing promises

  /** The content a path had before its first pending mutation. */
  function Oldest(stack: seq<FileUndo>, path: string): Option<Option<Bytes>> {
    if stack == [] then None else if stack[0].path == path then Some(stack[0].before) else Oldest(stack[1..], path)
  }

  /** What the path goes back to when everything pending is undone. */
  function Root(f: Files, path: string): Option<Bytes> {
    match Oldest(f.stack, path)
    case Some(before) => before
    case None => Get(f.contents, path)
  }

  /** Undoing everything leads back to the original content, path by path. */
  ghost predicate Coherent(f: Files, original: map<string, Bytes>) {
    forall path :: Root(f, path) == Get(original, path)
  }

  lemma {:induction false} OldestOfPath(stack: seq<FileUndo>, path: string, i: nat)
    requires i < |stack| && stack[i].path == path && forall k :: 0 <= k < i ==> stack[k].path != path
    ensures Oldest(stack, path) == Some(stack[i].before)
  {
    if i > 0 {
      OldestOfPath(stack[1..], path, i - 1);
    }
  }

  lemma {:induction false} NoneOfPath(stack: seq<FileUndo>, path: string)
    ensures Oldest(stack, path) == None <==> forall k :: 0 <= k < |stack| ==> stack[k].path != path
  {
    if stack != [] {
      NoneOfPath(stack[1..], path);
      assert (forall k :: 0 <= k < |stack| ==> stack[k].path != path) <==>
             stack[0].path != path && forall k :: 0 <= k < |stack[1..]| ==> stack[1..][k].path != path by {
        assert forall k :: 1 <= k < |stack| ==> stack[k] == stack[1..][k - 1];
      }
    }
  }

  lemma {:induction false} OldestPushed(stack: seq<FileUndo>, e: FileUndo, path: string)
    ensures Oldest(stack + [e], path) ==
            if Oldest(stack, path).Some? then Oldest(stack, path) else if e.path == path then Some(e.before) else None
  {
    if stack != [] {
      assert (stack + [e])[1..] == stack[1..] + [e];
      OldestPushed(stack[1..], e, path);
    }
  }

  /** Taking out a snapshot of another path, or one behind an older one, leaves the oldest. */
  lemma {:induction false} OldestStays(stack: seq<FileUndo>, i: nat, path: string)
    requires i < |stack| && (stack[i].path != path || exists k :: 0 <= k < i && stack[k].path == path)
    ensures Oldest(stack[..i] + stack[i + 1..], path) == Oldest(stack, path)
  {
    var rest := stack[..i] + stack[i + 1..];
    if i == 0 {
      assert rest == stack[1..];
    } else if stack[0].path != path {
      assert rest[1..] == stack[1..][..i - 1] + stack[1..][i..];
      if stack[i].path == path {
        var k :| 0 <= k < i && stack[k].path == path;
        assert stack[1..][k - 1].path == path;
      }
      OldestStays(stack[1..], i - 1, path);
    }
  }

  lemma MutateKeepsRoots(f: Files, session: string, path: string, content: Option<Bytes>, p: string)
    ensures Root(f.Mutate(session, path, content), p) == Root(f, p)
  {
    OldestPushed(f.stack, FileUndo(session, path, Get(f.contents, path)), p);
  }

  predicate SnapshotBefore(stack: seq<FileUndo>, i: nat)
    requires i < |stack|
  {
    exists k :: 0 <= k < i && stack[k].path == stack[i].path
  }

  predicate SnapshotAfter(stack: seq<FileUndo>, i: nat)
    requires i < |stack|
  {
    exists k :: i < k < |stack| && stack[k].path == stack[i].path
  }

  /** An undo whose write succeeds changes no root, unless it takes the oldest snapshot of a
      path away from under a newer one; then the newer one becomes the root. */
  lemma UndoRoots(f: Files, i: nat, p: string)
    requires i < |f.stack|
    ensures !SnapshotBefore(f.stack, i) && SnapshotAfter(f.stack, i) && p == f.stack[i].path ==>
              Oldest(f.stack[..i] + f.stack[i + 1..], p).Some?
              && Root(f.Undo(i, true), p) == Oldest(f.stack[..i] + f.stack[i + 1..], p).value
    ensures SnapshotBefore(f.stack, i) || !SnapshotAfter(f.stack, i) || p != f.stack[i].path ==>
            Root(f.Undo(i, true), p) == Root(f, p)
  {
    var e := f.stack[i];
    var rest := f.stack[..i] + f.stack[i + 1..];
    if p != e.path || SnapshotBefore(f.stack, i) {
      OldestStays(f.stack, i, p);
      if p == e.path {
        NoneOfPath(f.stack, p);
      }
    } else {
      OldestOfPath(f.stack, p, i);
      NoneOfPath(rest, p);
      if SnapshotAfter(f.stack, i) {
        var k :| i < k < |f.stack| && f.stack[k].path == p;
        assert rest[k - 1].path == p;
      } else {
        forall k | 0 <= k < |rest| ensures rest[k].path != p {
          assert rest[k] == f.stack[if k < i then k else k + 1];
        }
      }
    }
  }

  /** Exactly when an undo keeps the promise: unless it takes the oldest snapshot of a path
      away from under a newer one that does not hold the original content. */
  lemma UndoKeepsExactly(f: Files, original: map<string, Bytes>, i: nat)
    requires Coherent(f, original) && i < |f.stack|
    ensures Coherent(f.Undo(i, true), original) <==>
            (SnapshotBefore(f.stack, i) || !SnapshotAfter(f.stack, i)
             || Oldest(f.stack[..i] + f.stack[i + 1..], f.stack[i].path) == Some(Get(original, f.stack[i].path)))
  {
    var g := f.Undo(i, true);
    var own := f.stack[i].path;
    forall p ensures Root(f, p) == Get(original, p) && (p != own ==> Root(g, p) == Root(f, p)) {
      UndoRoots(f, i, p);
    }
    UndoRoots(f, i, own);
    if Root(g, own) == Get(original, own) {
      assert Coherent(g, original);
    }
  }

  // ---------------------------------------------------------------- one session per path

  ghost predicate OneSessionPerPath(stack: seq<FileUndo>, owner: map<string, string>) {
    forall i :: 0 <= i < |stack| ==> Get(owner, stack[i].path) == Some(stack[i].session)
  }

  datatype Op =
    | Mutation(session: string, path: string, content: Option<Bytes>)
    | SessionUndo(session: string)
    | PathRestore(path: string)

  /** What one operation does, all writes succeeding. */
  ghost predicate Does(f: Files, op: Op, g: Files) {
    match op
    case Mutation(session, path, content) => g == f.Mutate(session, path, content)
    case SessionUndo(session) =>
      if forall k :: 0 <= k < |f.stack| ==> !OfSession(f.stack[k], session) then g == f
      else exists i: nat :: NewestOfSession(f.stack, session, i) && g == f.Undo(i, true)
    case PathRestore(path) =>
      if forall k :: 0 <= k < |f.stack| ==> f.stack[k].path != path then g == f
      else exists i: nat :: NewestOfPath(f.stack, path, i) && g == f.Undo(i, true)
  }

  /** With one session per path every undo takes the newest snapshot of its path. */
  lemma NewestIsLast(stack: seq<FileUndo>, owner: map<string, string>, session: string, i: nat)
    requires OneSessionPerPath(stack, owner) && NewestOfSession(stack, session, i)
    ensures !SnapshotAfter(stack, i)
  {
  }

  lemma MutateKeeps(f: Files, session: string, path: string, content: Option<Bytes>, original: map<string, Bytes>)
    requires Coherent(f, original)
    ensures Coherent(f.Mutate(session, path, content), original)
  {
    var g := f.Mutate(session, path, content);
    forall p ensures Root(g, p) == Get(original, p) {
      MutateKeepsRoots(f, session, path, content, p);
      assert Root(f, p) == Get(original, p);
    }
  }

  lemma PoppedOwners(stack: seq<FileUndo>, owner: map<string, string>, i: nat)
    requires OneSessionPerPath(stack, owner) && i < |stack|
    ensures OneSessionPerPath(stack[..i] + stack[i + 1..], owner)
  {
  }

  lemma OpKeeps(f: Files, op: Op, g: Files, original: map<string, Bytes>, owner: map<string, string>)
    requires Coherent(f, original) && OneSessionPerPath(f.stack, owner) && Does(f, op, g)
    requires op.Mutation? ==> Get(owner, op.path) == Some(op.session)
    ensures Coherent(g, original) && OneSessionPerPath(g.stack, owner)
  {
    if op.Mutation? {
      MutateKeeps(f, op.session, op.path, op.content, original);
    } else if g != f {
      var i: nat :| i < |f.stack| && !SnapshotAfter(f.stack, i) && g == f.Undo(i, true) by {
        if op.SessionUndo? {
          var i: nat :| NewestOfSession(f.stack, op.session, i) && g == f.Undo(i, true);
          NewestIsLast(f.stack, owner, op.session, i);
        } else {
          var i: nat :| NewestOfPath(f.stack, op.path, i) && g == f.Undo(i, true);
          assert !SnapshotAfter(f.stack, i);
        }
      }
      UndoKeepsExactly(f, original, i);
      PoppedOwners(f.stack, owner, i);
    }
  }

  ghost predicate UndoTrace(states: seq<Files>, ops: seq<Op>, owner: map<string, string>) {
    && |states| == |ops| + 1 && states[0].stack == []
    && forall i :: 0 <= i < |ops| ==>
       Does(states[i], ops[i], states[i + 1]) && (ops[i].Mutation? ==> Get(owner, ops[i].path) == Some(ops[i].session))
  }

  lemma {:induction false} CoherentAlong(states: seq<Files>, ops: seq<Op>, owner: map<string, string>, n: nat)
    requires UndoTrace(states, ops, owner) && n <= |ops|
    ensures Coherent(states[n], states[0].contents) && OneSessionPerPath(states[n].stack, owner)
  {
    if n > 0 {
      CoherentAlong(states, ops, owner, n - 1);
      assert Does(states[n - 1], ops[n - 1], states[n - 1 + 1]);
      OpKeeps(states[n - 1], ops[n - 1], states[n], states[0].contents, owner);
    }
  }

  /** If each path is mutated by one session only, then after any mix of mutations, session
      undos, any-session undos and path restores: a path with pending snapshots has its
      original content in the oldest one, a path with none has it on disk. So a drained
      stack has restored every file, and removed the files that did not exist. */
  lemma UndoRestoresOriginals(states: seq<Files>, ops: seq<Op>, owner: map<string, string>, path: string)
    requires UndoTrace(states, ops, owner)
    ensures var f := states[|ops|]; var original := Get(states[0].contents, path);
            && (Oldest(f.stack, path).Some? ==> Oldest(f.stack, path).value == original)
            && (Oldest(f.stack, path).None? ==> Get(f.contents, path) == original)
    ensures states[|ops|].stack == [] ==> states[|ops|].contents == states[0].contents
  {
    CoherentAlong(states, ops, owner, |ops|);
    var f := states[|ops|];
    assert Root(f, path) == Get(states[0].contents, path);
    if f.stack == [] {
      forall p ensures Get(f.contents, p) == Get(states[0].contents, p) {
        assert Root(f, p) == Get(states[0].contents, p);
      }
      assert forall p :: p in f.contents ==> Get(f.contents, p).Some?;
      assert forall p :: p in states[0].contents ==> Get(states[0].contents, p).Some?;
    }
  }

  /** Two sessions on one file: undoing the first session's edit and then the second's leaves
      the first session's edit behind, for any two edits that differ from the original. */
  lemma TwoSessionsOneFile(original: Bytes, first: Bytes, second: Bytes, path: string)
    requires first != original
    ensures var f := Files(map[path := original], []).Mutate("a", path, Some(first)).Mutate("b", path, Some(second));
            NewestOfSession(f.stack, "a", 0) && f.Undo(0, true).stack != []
              && NewestOfSession(f.Undo(0, true).stack, "b", 0)
            && var g := f.Undo(0, true).Undo(0, true); g.stack == [] && Get(g.contents, path) == Some(first)
  {
  }
}
