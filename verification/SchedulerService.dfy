/** The scheduler's durable occurrence rows: what a firing pass reads and how it settles
    each row. */
module SchedulerModel {
  import opened Basics
  import opened ExecutionKernelModel
  import opened Dispatch

  datatype FiringError =
    | Unhealthy | UnknownOccurrence | ReceiptMismatch | WasCancelled | OtherReceipt | UnknownAutomation | NotSaved

  datatype OccurrenceState = Pending | Uncertain | Cancelled | Terminal

  datatype Row = Row(occurrence: Occurrence, state: OccurrenceState, receipt: Option<Receipt>)

  /** `disk(n)` says whether the n-th save succeeds, `lock(n)` whether the n-th attempt to
      lock the service does, and `cancels(n)` which occurrences other threads cancelled
      before that lock was taken. `jobs` maps an automation to its job. `fires` is a record of
      what happened: how many locks had been tried when a row was fired. */
  datatype Service = Service(
    order: seq<string>, rows: map<string, Row>, jobs: map<string, string>, healthy: bool,
    saves: nat, locks: nat, fires: map<string, nat>, disk: nat -> bool, lock: nat -> bool,
    cancels: nat -> set<string>)
  {
    /** Every row is filed once, under its own id. */
    ghost predicate Valid() {
      && (forall id :: id in order <==> id in rows)
      && (forall id :: id in rows ==> rows[id].occurrence.id == id)
    }

    /** A save that fails takes the change back. */
    function Save(later: map<string, Row>): (Service, bool) {
      if disk(saves) then (this.(rows := later, saves := saves + 1), true) else (this.(saves := saves + 1), false)
    }

    /** `mark_occurrence_fired_with_receipt`. */
    function MarkFired(id: string, receipt: Receipt): (Service, bool) {
      if !healthy || id !in rows || receipt != ReceiptFor(rows[id].occurrence) || rows[id].state.Cancelled?
        then (this, false)
      else if rows[id].state.Terminal? then (this, rows[id].receipt == Some(receipt))
      else if rows[id].occurrence.automation !in jobs then (this, false)
      else
        var (next, ok) := Save(rows[id := rows[id].(state := Terminal, receipt := Some(receipt))]);
        (if ok then next.(fires := fires[id := locks]) else next, ok)
    }

    /** The callers always give a reason, so the check for a blank one is not modelled. */
    function MarkUncertain(id: string): (Service, bool) {
      if !healthy || id !in rows || rows[id].state.Cancelled? || rows[id].state.Terminal? then (this, false)
      else Save(rows[id := rows[id].(state := Uncertain)])
    }

    /** The rows after admitting what fell due: an id that is already known is not admitted
        again. */
    function WithDue(due: seq<Occurrence>): Service {
      if due == [] then this
      else
        var before := WithDue(due[..|due| - 1]);
        var occ := due[|due| - 1];
        if occ.id in before.rows then before
        else before.(order := before.order + [occ.id], rows := before.rows[occ.id := Row(occ, Pending, None)])
    }

    /** `admit_due`; `None` stands for due occurrences that are refused. New rows are saved at
        once, and a save that fails takes them back. */
    function Admitted(due: Option<seq<Occurrence>>): (Service, bool) {
      if !healthy || due.None? then (this, false)
      else
        var later := WithDue(due.value);
        if |later.order| == |order| then (this, true)
        else if disk(saves) then (this.(order := later.order, rows := later.rows, saves := saves + 1), true)
        else (this.(saves := saves + 1), false)
    }

    /** Taking the lock shows what others cancelled meanwhile; a finished row is never
        cancelled. */
    function Locked(): (Service, bool) {
      if lock(locks) then (this.(rows := AfterCancels(rows, cancels(locks)), locks := locks + 1), true)
      else (this.(locks := locks + 1), false)
    }
  }

  function AfterCancels(rows: map<string, Row>, ids: set<string>): map<string, Row> {
    map id | id in rows ::
      if id in ids && (rows[id].state.Pending? || rows[id].state.Uncertain?) then rows[id].(state := Cancelled)
      else rows[id]
  }

  class SchedulerService {
    var order: seq<string>
    var rows: map<string, Row>
    var jobs: map<string, string>
    var healthy: bool
    var saves: nat
    var locks: nat
    ghost var fires: map<string, nat>
    const disk: nat -> bool
    const lock: nat -> bool
    const cancels: nat -> set<string>

    ghost function Now(): Service reads this {
      Service(order, rows, jobs, healthy, saves, locks, fires, disk, lock, cancels)
    }

    constructor (disk: nat -> bool, lock: nat -> bool, cancels: nat -> set<string>)
      ensures Now() == Service([], map[], map[], true, 0, 0, map[], disk, lock, cancels)
    {
      order, rows, jobs, healthy, saves, locks, fires := [], map[], map[], true, 0, 0, map[];
      this.disk, this.lock, this.cancels := disk, lock, cancels;
    }

    method Save(later: map<string, Row>) returns (ok: bool)
      modifies this
      ensures (Now(), ok) == old(Now()).Save(later)
    {
      ok := disk(saves);
      saves := saves + 1;
      if ok {
        rows := later;
      }
    }

    method Lock() returns (ok: bool)
      modifies this
      ensures (Now(), ok) == old(Now()).Locked()
    {
      ok := lock(locks);
      if ok {
        rows := AfterCancels(rows, cancels(locks));
      }
      locks := locks + 1;
    }

    method MarkFired(id: string, receipt: Receipt) returns (error: Option<FiringError>)
      modifies this
      ensures (Now(), error.None?) == old(Now()).MarkFired(id, receipt)
      ensures old(healthy) && id in old(rows) && receipt == ReceiptFor(old(rows)[id].occurrence) ==>
                (error == Some(WasCancelled) <==> old(rows)[id].state.Cancelled?)
                && (error == Some(OtherReceipt) <==>
                    old(rows)[id].state.Terminal? && old(rows)[id].receipt != Some(receipt))
                && (error == Some(UnknownAutomation) <==>
                    (old(rows)[id].state.Pending? || old(rows)[id].state.Uncertain?)
                    && old(rows)[id].occurrence.automation !in jobs)
      ensures error == Some(Unhealthy) <==> !old(healthy)
      ensures error == Some(UnknownOccurrence) <==> old(healthy) && id !in old(rows)
      ensures error == Some(ReceiptMismatch) <==>
              old(healthy) && id in old(rows) && receipt != ReceiptFor(old(rows)[id].occurrence)
      ensures forall other :: other in old(rows) && !old(rows)[other].state.Pending?
                              && !old(rows)[other].state.Uncertain? ==>
                other in rows && rows[other] == old(rows)[other]
      ensures error.None? ==> id in rows && rows[id].state.Terminal? && rows[id].receipt == Some(receipt)
    {
      if !healthy {
        return Some(Unhealthy);
      }
      if id !in rows {
        return Some(UnknownOccurrence);
      }
      var row := rows[id];
      if receipt != ReceiptFor(row.occurrence) {
        return Some(ReceiptMismatch);
      }
      if row.state.Cancelled? {
        return Some(WasCancelled);
      }
      if row.state.Terminal? {
        return if row.receipt == Some(receipt) then None else Some(OtherReceipt);
      }
      if row.occurrence.automation !in jobs {
        return Some(UnknownAutomation);
      }
      var ok := Save(rows[id := row.(state := Terminal, receipt := Some(receipt))]);
      if ok {
        fires := fires[id := locks];
      }
      return if ok then None else Some(NotSaved);
    }

    method MarkUncertain(id: string) returns (ok: bool)
      modifies this
      ensures (Now(), ok) == old(Now()).MarkUncertain(id)
    {
      if !healthy || id !in rows || rows[id].state.Cancelled? || rows[id].state.Terminal? {
        return false;
      }
      ok := Save(rows[id := rows[id].(state := Uncertain)]);
    }

    /** The pending rows, in admission order. */
    method PendingOccurrences() returns (pending: seq<Occurrence>)
      requires Now().Valid()
      ensures forall occ :: occ in pending <==>
              occ.id in rows && rows[occ.id].occurrence == occ && rows[occ.id].state.Pending?
    {
      pending := [];
      for i := 0 to |order|
        invariant forall occ :: occ in pending <==>
                    occ.id in order[..i] && occ.id in rows && rows[occ.id].occurrence == occ
                        && rows[occ.id].state.Pending?
      {
        var row := rows[order[i]];
        if row.state.Pending? {
          pending := pending + [row.occurrence];
        }
        assert order[..i + 1] == order[..i] + [order[i]];
      }
      assert order[..|order|] == order;
    }

    method AdmitDue(due: Option<seq<Occurrence>>) returns (ok: bool)
      modifies this
      ensures (Now(), ok) == old(Now()).Admitted(due)
    {
      if !healthy || due.None? {
        return false;
      }
      ghost var a := Now();
      var before, known := rows, order;
      for i := 0 to |due.value|
        invariant Now() == a.WithDue(due.value[..i]) == a.(order := order, rows := rows)
      {
        var occ := due.value[i];
        assert due.value[..i + 1][..i] == due.value[..i];
        if occ.id !in rows {
          order := order + [occ.id];
          rows := rows[occ.id := Row(occ, Pending, None)];
        }
      }
      assert due.value[..|due.value|] == due.value;
      ok := true;
      if |order| != |known| {
        ok := disk(saves);
        saves := saves + 1;
        if !ok {
          rows, order := before, known;
        }
      } else {
        WithDueAdmits(a, due.value);
      }
    }
  }

  /** What an admission adds: pending rows for due occurrences, at the end; known rows stay. */
  ghost predicate Admits(a: Service, b: Service, due: seq<Occurrence>) {
    && b == a.(order := b.order, rows := b.rows) && a.order <= b.order
    && (forall id :: id in a.rows ==> id in b.rows && b.rows[id] == a.rows[id])
    && (forall id :: id in b.rows && id !in a.rows ==> NewRow(b.rows[id], due))
    && (forall occ :: occ in due ==> occ.id in b.rows)
    && (|b.order| == |a.order| ==> b == a)
  }

  predicate NewRow(row: Row, due: seq<Occurrence>) {
    row.state.Pending? && row.receipt.None? && row.occurrence in due
  }

  lemma {:induction false} WithDueAdmits(a: Service, due: seq<Occurrence>)
    ensures Admits(a, a.WithDue(due), due)
    decreases |due|
  {
    if due != [] {
      WithDueAdmits(a, due[..|due| - 1]);
      AdmitsOneMore(a, a.WithDue(due[..|due| - 1]), a.WithDue(due), due);
    }
  }

  lemma AdmitsOneMore(a: Service, b: Service, c: Service, due: seq<Occurrence>)
    requires due != [] && Admits(a, b, due[..|due| - 1])
    requires var occ := due[|due| - 1];
             c == if occ.id in b.rows then b
                  else b.(order := b.order + [occ.id], rows := b.rows[occ.id := Row(occ, Pending, None)])
    ensures Admits(a, c, due)
  {
    var before := due[..|due| - 1];
    assert due == before + [due[|due| - 1]];
    forall id | id in c.rows && id !in a.rows ensures NewRow(c.rows[id], due) {
      assert id in b.rows ==> NewRow(b.rows[id], before);
    }
  }

  lemma {:induction false} WithDueValid(a: Service, due: seq<Occurrence>)
    requires a.Valid()
    ensures a.WithDue(due).Valid()
    decreases |due|
  {
    if due != [] {
      WithDueValid(a, due[..|due| - 1]);
    }
  }
}
