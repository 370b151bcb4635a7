/** Relaying a chat completion piece by piece while the same events are put together into
    one result. */
module Streaming {
  import opened Basics

  /** A fragment of a tool call, as the provider sends it. */
  datatype Delta = Delta(index: int, id: Option<string>, name: Option<string>, arguments: Option<string>)

  datatype Event = Event(delta: Option<string>, calls: seq<Delta>)

  datatype Piece = Content(text: string) | ToolCall(call: Delta)

  /** A tool call put together from its fragments. */
  datatype Assembled = Assembled(id: string, name: string, arguments: string)

  // ---------------------------------------------------------------- the relay

  function Text(o: Option<string>): string {
    if o.Some? then o.value else ""
  }

  /** All content of the events, and all their fragments, in order. */
  function Contents(events: seq<Event>): string {
    if events == [] then "" else Contents(events[..|events| - 1]) + Text(events[|events| - 1].delta)
  }

  function Fragments(events: seq<Event>): seq<Delta> {
    if events == [] then [] else Fragments(events[..|events| - 1]) + events[|events| - 1].calls
  }

  predicate Occurs(fragments: seq<Delta>, index: int) {
    exists i :: 0 <= i < |fragments| && fragments[i].index == index
  }

  /** The relayed form of the last fragment: id and name only if its call is new. */
  function Announce(before: seq<Delta>, d: Delta): Delta {
    if Occurs(before, d.index) then d.(id := None, name := None) else d
  }

  function Announced(fragments: seq<Delta>): seq<Delta> {
    if fragments == [] then []
    else Announced(fragments[..|fragments| - 1]) + [Announce(fragments[..|fragments| - 1], fragments[|fragments| - 1])]
  }

  /** The content of the pieces, and their tool-call fragments, in order. */
  function PieceContents(pieces: seq<Piece>): string {
    if pieces == [] then ""
    else PieceContents(pieces[..|pieces| - 1]) + if pieces[|pieces| - 1].Content? then pieces[|pieces| - 1].text else ""
  }

  function PieceCalls(pieces: seq<Piece>): seq<Delta> {
    if pieces == [] then []
    else PieceCalls(pieces[..|pieces| - 1]) + if pieces[|pieces| - 1].ToolCall? then [pieces[|pieces| - 1].call] else []
  }

  lemma {:induction false} OnePiece(pieces: seq<Piece>, p: Piece)
    ensures PieceContents(pieces + [p]) == PieceContents(pieces) + if p.Content? then p.text else ""
    ensures PieceCalls(pieces + [p]) == PieceCalls(pieces) + if p.ToolCall? then [p.call] else []
  {
    assert (pieces + [p])[..|pieces|] == pieces;
  }

  lemma {:induction false} OneEvent(events: seq<Event>, i: nat)
    requires i < |events|
    ensures Contents(events[..i + 1]) == Contents(events[..i]) + Text(events[i].delta)
    ensures Fragments(events[..i + 1]) == Fragments(events[..i]) + events[i].calls
  {
    assert events[..i + 1][..i] == events[..i];
  }

  lemma {:induction false} OneFragment(fragments: seq<Delta>, d: Delta)
    ensures Announced(fragments + [d]) == Announced(fragments) + [Announce(fragments, d)]
    ensures forall index :: Occurs(fragments + [d], index) <==> Occurs(fragments, index) || index == d.index
  {
    assert (fragments + [d])[..|fragments|] == fragments;
    forall index ensures Occurs(fragments + [d], index) <==> Occurs(fragments, index) || index == d.index {
      if Occurs(fragments, index) {
        var i :| 0 <= i < |fragments| && fragments[i].index == index;
        assert (fragments + [d])[i].index == index;
      }
      assert (fragments + [d])[|fragments|] == d;
    }
  }

  /** The fragments of one event. */
  method RelayCalls(calls: seq<Delta>, ghost before: seq<Delta>, seen: set<int>, pieces: seq<Piece>)
    returns (seenNow: set<int>, now: seq<Piece>)
    requires forall index :: index in seen <==> Occurs(before, index)
    requires PieceCalls(pieces) == Announced(before)
    ensures forall index :: index in seenNow <==> Occurs(before + calls, index)
    ensures PieceCalls(now) == Announced(before + calls) && PieceContents(now) == PieceContents(pieces)
    ensures NoEmptyContent(pieces) ==> NoEmptyContent(now)
  {
    seenNow, now := seen, pieces;
    assert before + calls[..0] == before;
    for i := 0 to |calls|
      invariant forall index :: index in seenNow <==> Occurs(before + calls[..i], index)
      invariant PieceCalls(now) == Announced(before + calls[..i]) && PieceContents(now) == PieceContents(pieces)
      invariant NoEmptyContent(pieces) ==> NoEmptyContent(now)
    {
      var tc := calls[i];
      var first := tc.index !in seenNow;
      seenNow := seenNow + {tc.index};
      var piece := ToolCall(if first then tc else tc.(id := None, name := None));
      OnePiece(now, piece);
      OneFragment(before + calls[..i], tc);
      assert before + calls[..i + 1] == before + calls[..i] + [tc];
      now := now + [piece];
    }
    assert calls[..|calls|] == calls;
  }

  predicate NoEmptyContent(pieces: seq<Piece>) {
    forall i :: 0 <= i < |pieces| && pieces[i].Content? ==> pieces[i].text != ""
  }

  /** The callback, event by event: non-empty content first, then the fragments. */
  method Relay(events: seq<Event>) returns (pieces: seq<Piece>)
    ensures PieceContents(pieces) == Contents(events) && PieceCalls(pieces) == Announced(Fragments(events))
    ensures NoEmptyContent(pieces)
  {
    pieces := [];
    var seen: set<int> := {};
    for i := 0 to |events|
      invariant PieceContents(pieces) == Contents(events[..i])
                && PieceCalls(pieces) == Announced(Fragments(events[..i]))
      invariant forall index :: index in seen <==> Occurs(Fragments(events[..i]), index)
      invariant NoEmptyContent(pieces)
    {
      OneEvent(events, i);
      var delta := events[i].delta;
      if delta.Some? && delta.value != "" {
        OnePiece(pieces, Content(delta.value));
        pieces := pieces + [Content(delta.value)];
      }
      seen, pieces := RelayCalls(events[i].calls, Fragments(events[..i]), seen, pieces);
    }
    assert events[..|events|] == events;
  }

  // ---------------------------------------------------------------- the aggregate

  /** The last non-empty text under an index. */
  function LastId(fragments: seq<Delta>, index: int): string {
    if fragments == [] then ""
    else
      var d := fragments[|fragments| - 1];
      if d.index == index && Text(d.id) != "" then Text(d.id) else LastId(fragments[..|fragments| - 1], index)
  }

  function LastName(fragments: seq<Delta>, index: int): string {
    if fragments == [] then ""
    else
      var d := fragments[|fragments| - 1];
      if d.index == index && Text(d.name) != "" then Text(d.name) else LastName(fragments[..|fragments| - 1], index)
  }

  /** The argument fragments under an index, concatenated. */
  function Arguments(fragments: seq<Delta>, index: int): string {
    if fragments == [] then ""
    else
      var d := fragments[|fragments| - 1];
      Arguments(fragments[..|fragments| - 1], index) + if d.index == index then Text(d.arguments) else ""
  }

  function AssembledAt(fragments: seq<Delta>, index: int): Assembled {
    Assembled(LastId(fragments, index), LastName(fragments, index), Arguments(fragments, index))
  }

  /** The aggregate takes the last non-empty id and name of an index, and its arguments add up. */
  lemma {:induction false} LastTexts(fragments: seq<Delta>, index: int, k: nat)
    requires k < |fragments| && fragments[k].index == index
    ensures Text(fragments[k].id) != ""
            && (forall m :: k < m < |fragments| && fragments[m].index == index ==> Text(fragments[m].id) == "") ==>
              AssembledAt(fragments, index).id == Text(fragments[k].id)
    ensures Text(fragments[k].name) != ""
            && (forall m :: k < m < |fragments| && fragments[m].index == index ==> Text(fragments[m].name) == "") ==>
              AssembledAt(fragments, index).name == Text(fragments[k].name)
  {
    if k < |fragments| - 1 {
      var front := fragments[..|fragments| - 1];
      assert forall m :: 0 <= m < |front| ==> front[m] == fragments[m];
      LastTexts(front, index, k);
    }
  }

  lemma {:induction false} ArgumentsAddUp(a: seq<Delta>, b: seq<Delta>, index: int)
    ensures Arguments(a + b, index) == Arguments(a, index) + Arguments(b, index)
    ensures |b| == 1 ==> Arguments(b, index) == if b[0].index == index then Text(b[0].arguments) else ""
  {
    if b == [] {
      assert a + b == a;
    } else {
      var front := b[..|b| - 1];
      assert (a + b)[..|a + b| - 1] == a + front;
      ArgumentsAddUp(a, front, index);
    }
  }

  lemma {:induction false} NothingUnder(fragments: seq<Delta>, index: int)
    requires !Occurs(fragments, index)
    ensures AssembledAt(fragments, index) == Assembled("", "", "")
  {
    if fragments != [] {
      var front := fragments[..|fragments| - 1];
      assert fragments[|fragments| - 1].index != index;
      assert !Occurs(front, index) by {
        assert forall i :: 0 <= i < |front| ==> front[i] == fragments[i];
      }
      NothingUnder(front, index);
    }
  }

  function Merge(byIndex: map<int, Assembled>, d: Delta): map<int, Assembled> {
    byIndex[d.index := Joined(if d.index in byIndex then byIndex[d.index] else Assembled("", "", ""), d)]
  }

  ghost predicate Holds(byIndex: map<int, Assembled>, fragments: seq<Delta>) {
    && (forall index :: index in byIndex <==> Occurs(fragments, index))
    && (forall index :: index in byIndex ==> byIndex[index] == AssembledAt(fragments, index))
  }

  function Joined(entry: Assembled, d: Delta): Assembled {
    Assembled(if Text(d.id) != "" then Text(d.id) else entry.id,
              if Text(d.name) != "" then Text(d.name) else entry.name,
              entry.arguments + Text(d.arguments))
  }

  lemma {:induction false} AssembledLast(fragments: seq<Delta>, d: Delta, index: int)
    ensures AssembledAt(fragments + [d], index) == if d.index == index then Joined(AssembledAt(fragments, index), d)
            else AssembledAt(fragments, index)
  {
    assert (fragments + [d])[..|fragments|] == fragments;
  }

  lemma {:induction false} MergeHolds(byIndex: map<int, Assembled>, fragments: seq<Delta>, d: Delta)
    requires Holds(byIndex, fragments)
    ensures Holds(Merge(byIndex, d), fragments + [d])
  {
    var merged := Merge(byIndex, d);
    OneFragment(fragments, d);
    if d.index !in byIndex {
      NothingUnder(fragments, d.index);
    }
    forall index | index in merged ensures merged[index] == AssembledAt(fragments + [d], index) {
      AssembledLast(fragments, d, index);
    }
  }

  /** The fragments of one event. */
  method MergeCalls(byIndex: map<int, Assembled>, calls: seq<Delta>, ghost before: seq<Delta>)
    returns (merged: map<int, Assembled>)
    requires Holds(byIndex, before)
    ensures Holds(merged, before + calls)
  {
    merged := byIndex;
    assert before + calls[..0] == before;
    for j := 0 to |calls|
      invariant Holds(merged, before + calls[..j])
    {
      MergeHolds(merged, before + calls[..j], calls[j]);
      merged := Merge(merged, calls[j]);
      assert before + calls[..j + 1] == before + calls[..j] + [calls[j]];
    }
    assert calls[..|calls|] == calls;
  }

  /** One entry per index: later ids and names replace earlier ones, arguments are appended. */
  method Assemble(events: seq<Event>) returns (byIndex: map<int, Assembled>, content: string)
    ensures content == Contents(events) && Holds(byIndex, Fragments(events))
  {
    byIndex, content := map[], "";
    for i := 0 to |events|
      invariant content == Contents(events[..i]) && Holds(byIndex, Fragments(events[..i]))
    {
      OneEvent(events, i);
      content := content + Text(events[i].delta);
      byIndex := MergeCalls(byIndex, events[i].calls, Fragments(events[..i]));
    }
    assert events[..|events|] == events;
  }

  // ---------------------------------------------------------------- the finished calls

  /** The arguments of a finished call: none, what their text reads as, or the text itself. */
  datatype CallArguments = NoArguments | Json(value: string) | Raw(text: string)

  datatype FinishedCall = FinishedCall(id: string, name: string, arguments: CallArguments)

  /** A call without a name is dropped. Arguments that cannot be read are kept as they are,
      unless the answer was cut off by its length: then the call is dropped. */
  function Finish(a: Assembled, cut: bool, read: string -> Option<string>): Option<(string, CallArguments)> {
    if a.name == "" then None
    else if a.arguments == "" then Some((a.name, NoArguments))
    else
      match read(a.arguments)
      case Some(value) => Some((a.name, Json(value)))
      case None => if cut then None else Some((a.name, Raw(a.arguments)))
  }

  /** What becomes of a call, read off its parts: it is dropped exactly if it has no name, or if
      the answer was cut off within its arguments, and nothing is made of arguments that are not there. */
  lemma FinishExactly(a: Assembled, cut: bool, read: string -> Option<string>)
    ensures var f := Finish(a, cut, read);
            && (f.None? <==> a.name == "" || (cut && a.arguments != "" && read(a.arguments).None?))
            && (f.Some? ==>
                && f.value.0 == a.name
                && (f.value.1.NoArguments? <==> a.arguments == "")
                && (f.value.1.Json? <==> a.arguments != "" && read(a.arguments).Some?)
                && (f.value.1.Json? ==> read(a.arguments) == Some(f.value.1.value))
                && (f.value.1.Raw? ==> f.value.1.text == a.arguments))
  {
  }

  /** The finished calls of these indices, in this order. */
  function Finished(order: seq<int>, fragments: seq<Delta>, cut: bool, read: string -> Option<string>)
    : seq<(string, CallArguments)>
  {
    if order == [] then []
    else
      var last := Finish(AssembledAt(fragments, order[|order| - 1]), cut, read);
      Finished(order[..|order| - 1], fragments, cut, read) + (if last.Some? then [last.value] else [])
  }

  /** The calls numbered from 0. */
  function Numbered(calls: seq<(string, CallArguments)>): (numbered: seq<FinishedCall>)
    ensures |numbered| == |calls|
    ensures forall i :: 0 <= i < |calls| ==> numbered[i] == FinishedCall("call_" + Decimal(i), calls[i].0, calls[i].1)
  {
    seq(|calls|, i requires 0 <= i < |calls| => FinishedCall("call_" + Decimal(i), calls[i].0, calls[i].1))
  }

  ghost predicate Ascending(order: seq<int>) {
    forall i, j :: 0 <= i < j < |order| ==> order[i] < order[j]
  }

  /** Every index of the fragments once, in ascending order. */
  ghost predicate Lists(order: seq<int>, fragments: seq<Delta>) {
    Ascending(order) && forall index :: index in order <==> Occurs(fragments, index)
  }

  lemma Inhabited(indices: set<int>)
    requires indices != {}
    ensures exists index :: index in indices
  {
    assert (forall index: int :: index !in indices) ==> indices == {};
  }

  method Least(indices: set<int>) returns (least: int)
    requires indices != {}
    ensures least in indices && forall index :: index in indices ==> least <= index
  {
    Inhabited(indices);
    least :| least in indices;
    var left := indices - {least};
    while left != {}
      invariant left <= indices && least in indices
      invariant forall index :: index in indices && index !in left ==> least <= index
      decreases |left|
    {
      Inhabited(left);
      var index :| index in left;
      if index < least {
        least := index;
      }
      left := left - {index};
    }
  }

  /** The calls in the order of their indices, each finished or dropped, and numbered. */
  method FinishCalls(byIndex: map<int, Assembled>, ghost fragments: seq<Delta>, cut: bool,
                     read: string -> Option<string>)
    returns (calls: seq<FinishedCall>)
    requires Holds(byIndex, fragments)
    ensures exists order :: Lists(order, fragments) && calls == Numbered(Finished(order, fragments, cut, read))
  {
    var list := [];
    ghost var order := [];
    var left := byIndex.Keys;
    while left != {}
      invariant left <= byIndex.Keys && Ascending(order)
      invariant forall index :: index in order <==> index in byIndex && index !in left
      invariant forall i, index :: 0 <= i < |order| && index in left ==> order[i] < index
      invariant list == Finished(order, fragments, cut, read)
      decreases |left|
    {
      var index := Least(left);
      var call := Finish(byIndex[index], cut, read);
      assert (order + [index])[..|order|] == order;
      list := list + (if call.Some? then [call.value] else []);
      order := order + [index];
      left := left - {index};
    }
    assert Lists(order, fragments);
    calls := Numbered(list);
  }

  /** A call is listed exactly if it is the finished call of one of the indices. */
  lemma {:induction false} FinishedExactly(order: seq<int>, fragments: seq<Delta>, cut: bool,
                                           read: string -> Option<string>, call: (string, CallArguments))
    ensures call in Finished(order, fragments, cut, read)
            <==> exists index :: index in order && Finish(AssembledAt(fragments, index), cut, read) == Some(call)
  {
    if order != [] {
      var n := |order| - 1;
      FinishedExactly(order[..n], fragments, cut, read, call);
      assert order == order[..n] + [order[n]];
    }
  }

  /** A call of an answer that was cut off has arguments that can be read, and no two calls of
      an answer have one id. */
  lemma CutCallsAreWhole(order: seq<int>, fragments: seq<Delta>, cut: bool, read: string -> Option<string>, i: nat,
                         j: nat)
    requires var calls := Numbered(Finished(order, fragments, cut, read)); i < |calls| && j < |calls|
    ensures var calls := Numbered(Finished(order, fragments, cut, read));
            && (cut ==> !calls[i].arguments.Raw?)
            && (calls[i].id == calls[j].id ==> i == j)
  {
    var list := Finished(order, fragments, cut, read);
    FinishedExactly(order, fragments, cut, read, list[i]);
    if Numbered(list)[i].id == Numbered(list)[j].id {
      assert Decimal(i) == ("call_" + Decimal(i))[5..] && Decimal(j) == ("call_" + Decimal(j))[5..];
      DecimalInjective(i, j);
    }
  }

  // ---------------------------------------------------------------- relay and aggregate agree

  /** Announcing touches no index and no arguments. */
  lemma {:induction false} AnnouncedKeeps(fragments: seq<Delta>, index: int)
    ensures |Announced(fragments)| == |fragments|
            && Arguments(Announced(fragments), index) == Arguments(fragments, index)
    ensures forall i :: 0 <= i < |fragments| ==> Announced(fragments)[i].index == fragments[i].index
                                                 && Announced(fragments)[i].arguments == fragments[i].arguments
  {
    if fragments != [] {
      var front := fragments[..|fragments| - 1];
      AnnouncedKeeps(front, index);
      assert Announced(fragments)[..|front|] == Announced(front);
    }
  }

  /** The first fragment of an index is relayed as it came; no later one carries id or name. */
  lemma {:induction false} OnlyFirstAnnounces(fragments: seq<Delta>, i: nat)
    requires i < |fragments|
    ensures |Announced(fragments)| == |fragments| && Announced(fragments)[i] == Announce(fragments[..i], fragments[i])
  {
    var n := |fragments| - 1;
    var front := fragments[..n];
    AnnouncedKeeps(front, 0);
    if i < n {
      OnlyFirstAnnounces(front, i);
      assert front[..i] == fragments[..i];
    }
  }

  /** For every event list: the relayed content is the result's content; per index the
      relayed argument pieces concatenate to the aggregate's arguments, in order; and an id or
      a name is relayed only with the first piece of its index. */
  lemma {:induction false} RelayMatchesAggregate(events: seq<Event>, pieces: seq<Piece>, index: int, i: nat)
    requires PieceCalls(pieces) == Announced(Fragments(events))
    ensures Arguments(PieceCalls(pieces), index) == AssembledAt(Fragments(events), index).arguments
    ensures |PieceCalls(pieces)| == |Fragments(events)|
    ensures i < |PieceCalls(pieces)| && (PieceCalls(pieces)[i].id.Some? || PieceCalls(pieces)[i].name.Some?) ==>
              !Occurs(PieceCalls(pieces)[..i], PieceCalls(pieces)[i].index)
    ensures i < |PieceCalls(pieces)| && !Occurs(Fragments(events)[..i], Fragments(events)[i].index) ==>
              PieceCalls(pieces)[i] == Fragments(events)[i]
    ensures i < |PieceCalls(pieces)| ==> PieceCalls(pieces)[i].arguments == Fragments(events)[i].arguments
  {
    var fragments := Fragments(events);
    AnnouncedKeeps(fragments, index);
    if i < |fragments| {
      OnlyFirstAnnounces(fragments, i);
      if Occurs(PieceCalls(pieces)[..i], fragments[i].index) {
        var k :| 0 <= k < |PieceCalls(pieces)[..i]| && PieceCalls(pieces)[..i][k].index == fragments[i].index;
        assert fragments[..i][k].index == fragments[i].index;
      }
    }
  }

  /** Fragment `k` of the index names the call otherwise than fragment `i` before it, and no
      later one names it again. */
  predicate Renames(fragments: seq<Delta>, index: int, i: nat, k: nat) {
    && i < k < |fragments| && fragments[k].index == index
    && Text(fragments[k].name) != "" && Text(fragments[k].name) != Text(fragments[i].name)
    && forall m :: k < m < |fragments| && fragments[m].index == index ==> Text(fragments[m].name) == ""
  }

  /** The first fragment names the call for good exactly if no later one renames it. */
  lemma {:induction false} NamedByFirst(fragments: seq<Delta>, index: int, i: nat)
    requires i < |fragments| && fragments[i].index == index && !Occurs(fragments[..i], index)
    ensures LastName(fragments, index) == Text(fragments[i].name) <==> !exists k :: Renames(fragments, index, i, k)
  {
    var n := |fragments| - 1;
    var front := fragments[..n];
    if i == n {
      NoNameUnder(front, index);
    } else {
      assert front[..i] == fragments[..i];
      NamedByFirst(front, index, i);
      if fragments[n].index == index && Text(fragments[n].name) != "" {
        assert Renames(fragments, index, i, n) <==> Text(fragments[n].name) != Text(fragments[i].name);
      } else {
        RenamesBefore(fragments, index, i);
      }
    }
  }

  /** A last fragment that names nothing renames nothing. */
  lemma RenamesBefore(fragments: seq<Delta>, index: int, i: nat)
    requires i < |fragments| - 1
    requires fragments[|fragments| - 1].index != index || Text(fragments[|fragments| - 1].name) == ""
    ensures var front := fragments[..|fragments| - 1];
            (exists k :: Renames(fragments, index, i, k)) <==> exists k :: Renames(front, index, i, k)
  {
    var front := fragments[..|fragments| - 1];
    if k :| Renames(fragments, index, i, k) {
      assert Renames(front, index, i, k);
    }
    if k :| Renames(front, index, i, k) {
      assert Renames(fragments, index, i, k);
    }
  }

  /** The name a client can collect from the relay is that of the first fragment of the index;
      it is the aggregate's exactly if no later fragment renames the call. */
  lemma NameAgrees(fragments: seq<Delta>, index: int, i: nat)
    requires i < |fragments| && fragments[i].index == index && !Occurs(fragments[..i], index)
    ensures LastName(Announced(fragments), index) == Text(fragments[i].name)
    ensures LastName(Announced(fragments), index) == LastName(fragments, index)
            <==> !exists k :: Renames(fragments, index, i, k)
  {
    FirstNameRelayed(fragments, index, i);
    NamedByFirst(fragments, index, i);
  }

  /** A call whose name comes with its second fragment has a name in the result and none in the
      stream. */
  lemma NameLost()
    ensures var fragments := [Delta(0, Some("id"), None, None), Delta(0, None, Some("name"), None)];
            LastName(Announced(fragments), 0) == "" && AssembledAt(fragments, 0).name == "name"
  {
    var fragments := [Delta(0, Some("id"), None, None), Delta(0, None, Some("name"), None)];
    assert fragments[0].index == 0 && fragments[..0] == [];
    FirstNameRelayed(fragments, 0, 0);
  }

  lemma {:induction false} FirstNameRelayed(fragments: seq<Delta>, index: int, i: nat)
    requires i < |fragments| && fragments[i].index == index && !Occurs(fragments[..i], index)
    ensures LastName(Announced(fragments), index) == Text(fragments[i].name)
  {
    var n := |fragments| - 1;
    var front := fragments[..n];
    AnnouncedKeeps(front, index);
    assert Announced(fragments)[..n] == Announced(front);
    if i == n {
      NoNameUnder(Announced(front), index);
    } else {
      assert front[..i] == fragments[..i];
      FirstNameRelayed(front, index, i);
      assert fragments[n].index == index ==> Occurs(front, index) by {
        assert front[i].index == index;
      }
    }
  }

  lemma {:induction false} NoNameUnder(fragments: seq<Delta>, index: int)
    requires forall i :: 0 <= i < |fragments| ==> fragments[i].index != index
    ensures LastName(fragments, index) == ""
  {
    if fragments != [] {
      NoNameUnder(fragments[..|fragments| - 1], index);
    }
  }
}
