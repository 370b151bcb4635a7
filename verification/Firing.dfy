/** One firing pass: collect the pending occurrences, dispatch each, settle its row. */
module Firing {
  import opened Basics
  import opened SessionVaultModel
  import opened WorkGatewayModel
  import opened ExecutionKernelModel
  import opened Dispatch
  import opened Convergence
  import opened SchedulerModel

  /** The Work points at the occurrence's own Run, and the kernel knows that Run. */
  predicate Linked(s: Spine, occ: Occurrence) {
    && Get(s.g.currentRun, occ.WorkId()) == Some(occ.RunId()) && occ.WorkId() in s.g.works
    && occ.RunId() in s.k.runs
  }

  /** Between `a` and `b` every lock was granted and every save succeeded. */
  ghost predicate Smooth(a: Service, b: Service) {
    && a.healthy
    && (forall n :: a.locks <= n < b.locks ==> a.lock(n))
    && (forall n :: a.saves <= n < b.saves ==> a.disk(n))
  }

  /** How a row may change during a pass that does not own it: others may cancel it. */
  predicate OnlyCancelled(a: Row, b: Row) {
    b == a || ((a.state.Pending? || a.state.Uncertain?) && b == a.(state := Cancelled))
  }

  /** How a row the pass owns may change: a pending one is fired with the receipt of its own
      Work and Run, made uncertain, or cancelled by others. */
  predicate Handled(a: Row, b: Row) {
    OnlyCancelled(a, b)
    || (a.state.Pending? && b == a.(state := Terminal, receipt := Some(ReceiptFor(a.occurrence))))
    || (a.state.Pending? && b == a.(state := Uncertain))
  }

  ghost predicate Frame(a: Service, b: Service) {
    && b == a.(rows := b.rows, saves := b.saves, locks := b.locks, fires := b.fires)
    && a.saves <= b.saves && a.locks <= b.locks && b.rows.Keys == a.rows.Keys
  }

  function Outcome(s: Spine, occ: Occurrence, dispatched: bool): Spine {
    if dispatched then Dispatched(s, occ).0 else s
  }

  // ---------------------------------------------------------------- links last

  /** No later dispatch undoes a link. */
  lemma AttemptKeepsLink(s: Spine, occ: Occurrence, n: nat, other: Occurrence)
    requires occ.Compiles() && Linked(s, other)
    ensures Linked(Attempt(s, occ, n).0, other)
  {
    AttemptAdds(s, occ, n);
    AddsKeepsLink(s, Attempt(s, occ, n).0, other);
  }

  lemma AddsKeepsLink(s: Spine, t: Spine, other: Occurrence)
    requires Adds(s, t) && Linked(s, other)
    ensures Linked(t, other)
  {
  }

  /** An admitted occurrence is linked: the receipt it gets is true. */
  lemma AdmittedIsLinked(s: Spine, occ: Occurrence)
    requires Dispatched(s, occ).1
    ensures Linked(Dispatched(s, occ).0, occ)
  {
    Unroll(s, occ);
    var g2 := AdmitProvenance(AdmitWork(s.g, occ).0, occ).0;
    var k := AdmitRun(s.k, occ).0;
    assert occ.WorkId() in g2.works;
    assert occ.RunId() in k.runs;
    AdmittedLinks(g2, occ);
  }

  lemma AdmittedLinks(g: Gateway, occ: Occurrence)
    requires AdmitLink(g, occ).1
    ensures var h := AdmitLink(g, occ).0; Get(h.currentRun, occ.WorkId()) == Some(occ.RunId()) && h.works == g.works
  {
  }

  // ---------------------------------------------------------------- cancellations

  predicate Open(row: Row) {
    row.state.Pending? || row.state.Uncertain?
  }

  /** Taking the `n`-th lock showed that others had cancelled the occurrence. */
  predicate CancelSeen(a: Service, b: Service, n: nat, id: string) {
    a.locks <= n < b.locks && a.lock(n) && id in a.cancels(n)
  }

  /** An open occurrence that others cancel is cancelled for good, unless it was fired before
      the lock that shows the cancellation; and only others cancel. */
  ghost predicate CancelKept(a: Service, b: Service, id: string) {
    && id in b.rows
    && (forall n: nat :: CancelSeen(a, b, n, id) ==>
          b.rows[id].state.Cancelled? || (b.rows[id].state.Terminal? && id in b.fires && b.fires[id] <= n))
    && (b.rows[id].state.Cancelled? ==> exists n: nat :: CancelSeen(a, b, n, id))
    && (b.rows[id].state.Terminal? ==> id in b.fires && b.fires[id] <= b.locks)
  }

  /** A row that was settled stays as it is. */
  ghost predicate RowKept(a: Service, b: Service, id: string) {
    id in a.rows ==>
      if Open(a.rows[id]) then CancelKept(a, b, id)
      else id in b.rows && b.rows[id] == a.rows[id] && Get(b.fires, id) == Get(a.fires, id)
  }

  ghost predicate CancelsKept(a: Service, b: Service) {
    forall id :: RowKept(a, b, id)
  }

  ghost predicate SameScript(a: Service, b: Service) {
    a.lock == b.lock && a.cancels == b.cancels && a.locks <= b.locks
  }

  lemma CancelsTransitive(a: Service, b: Service, c: Service)
    requires CancelsKept(a, b) && CancelsKept(b, c) && SameScript(a, b) && SameScript(b, c)
    ensures CancelsKept(a, c)
  {
    forall id ensures RowKept(a, c, id) {
      assert RowKept(a, b, id) && RowKept(b, c, id);
      if id in a.rows && Open(a.rows[id]) {
        CancelTransitive(a, b, c, id);
      }
    }
  }

  lemma CancelTransitive(a: Service, b: Service, c: Service, id: string)
    requires CancelKept(a, b, id) && CancelsKept(b, c) && SameScript(a, b) && SameScript(b, c)
    ensures CancelKept(a, c, id)
  {
    assert RowKept(b, c, id);
    forall n: nat | CancelSeen(a, c, n, id)
      ensures c.rows[id].state.Cancelled? || (c.rows[id].state.Terminal? && id in c.fires && c.fires[id] <= n)
    {
      assert if n < b.locks then CancelSeen(a, b, n, id) else CancelSeen(b, c, n, id);
    }
    if c.rows[id].state.Cancelled? {
      if Open(b.rows[id]) {
        var n: nat :| CancelSeen(b, c, n, id);
        assert CancelSeen(a, c, n, id);
      } else {
        var n: nat :| CancelSeen(a, b, n, id);
        assert CancelSeen(a, c, n, id);
      }
    }
  }

  lemma LockCancels(a: Service)
    ensures CancelsKept(a, a.Locked().0)
  {
    var b := a.Locked().0;
    forall id ensures RowKept(a, b, id) {
      if id in a.rows && Open(a.rows[id]) && b.rows[id].state.Cancelled? {
        assert CancelSeen(a, b, a.locks, id);
      }
    }
  }

  /** Between two locks nothing is cancelled. */
  lemma SettlingCancels(a: Service, b: Service, own: string)
    requires b.locks == a.locks && own in a.rows && own in b.rows && b.rows == a.rows[own := b.rows[own]]
    requires b.rows[own] == a.rows[own] || (Open(a.rows[own]) && !b.rows[own].state.Cancelled?)
    requires b.fires == if b.rows[own].state.Terminal? && !a.rows[own].state.Terminal? then a.fires[own := a.locks]
                        else a.fires
    ensures CancelsKept(a, b)
  {
    forall id ensures RowKept(a, b, id) {
    }
  }

  // ---------------------------------------------------------------- one occurrence

  /** What one part of the pass does to the rows, of which it owns `own`. */
  ghost predicate OwnRow(a: Service, b: Service, own: string) {
    && Frame(a, b) && b.Valid() && own in a.rows
    && (forall id :: id in b.rows && id != own ==> OnlyCancelled(a.rows[id], b.rows[id]))
    && Handled(a.rows[own], b.rows[own]) && CancelsKept(a, b)
  }

  lemma OwnRowTransitive(a: Service, b: Service, c: Service, own: string)
    requires OwnRow(a, b, own) && OwnRow(b, c, own)
    ensures OwnRow(a, c, own)
  {
    forall id | id in c.rows && id != own ensures OnlyCancelled(a.rows[id], c.rows[id]) {
      assert OnlyCancelled(a.rows[id], b.rows[id]) && OnlyCancelled(b.rows[id], c.rows[id]);
    }
    CancelsTransitive(a, b, c);
  }

  lemma LockOwns(a: Service, own: string)
    requires a.Valid() && own in a.rows
    ensures OwnRow(a, a.Locked().0, own) && OnlyCancelled(a.rows[own], a.Locked().0.rows[own])
  {
    LockCancels(a);
  }

  /** The row under the lock: settled, or left alone. */
  lemma SettleOwns(a: Service, b: Service, own: string)
    requires a.Valid() && own in a.rows && b == a.(rows := b.rows, saves := b.saves, fires := b.fires)
    requires a.saves <= b.saves && own in b.rows && b.rows == a.rows[own := b.rows[own]]
    requires b.rows[own] == a.rows[own] || (Open(a.rows[own]) && !b.rows[own].state.Cancelled?)
    requires Handled(a.rows[own], b.rows[own])
    requires b.fires == if b.rows[own].state.Terminal? && !a.rows[own].state.Terminal? then a.fires[own := a.locks]
                        else a.fires
    ensures OwnRow(a, b, own)
  {
    SettlingCancels(a, b, own);
  }

  /** An occurrence is fired under the second lock after it was taken up. */
  predicate OwnFire(a: Service, b: Service, own: string) {
    own in b.rows && b.rows[own].state.Terminal? && own in a.rows && !a.rows[own].state.Terminal? ==>
      && Get(b.fires, own) == Some(a.locks + 2) && a.locks + 2 <= b.locks && b.lock(a.locks) && b.lock(a.locks + 1)
  }

  /** A row fired between the two was fired under a lock, after another lock showed it pending. */
  ghost predicate FiredUnderLock(a: Service, b: Service, id: string) {
    id in b.rows && b.rows[id].state.Terminal? && id in a.rows && !a.rows[id].state.Terminal? ==>
      id in b.fires && a.locks + 2 <= b.fires[id] <= b.locks && b.lock(b.fires[id] - 1) && b.lock(b.fires[id] - 2)
  }

  ghost predicate FiredUnderLocks(a: Service, b: Service) {
    forall id :: FiredUnderLock(a, b, id)
  }

  /** `mark_occurrence_uncertain` of the host: takes the lock, drops every error. */
  method GiveUp(service: SchedulerService, own: string)
    requires service.Now().Valid() && own in service.rows
    modifies service
    ensures OwnRow(old(service.Now()), service.Now(), own)
    ensures service.rows[own].state.Terminal? ==> service.rows[own] == old(service.rows)[own]
    ensures Smooth(old(service.Now()), service.Now()) ==> !service.rows[own].state.Pending?
    ensures service.locks == old(service.locks) + 1
    ensures !service.lock(old(service.locks)) ==> service.rows == old(service.rows)
    ensures service.fires == old(service.fires)
  {
    ghost var a := service.Now();
    LockOwns(a, own);
    var locked := service.Lock();
    if locked {
      ghost var b := service.Now();
      var _ := service.MarkUncertain(own);
      if Open(b.rows[own]) {
        SettleOwns(b, service.Now(), own);
        OwnRowTransitive(a, b, service.Now(), own);
      }
    }
  }

  /** What becomes of an occurrence dispatched in state `s` when locks and saves work: it is
      fired exactly if the dispatch admits it and its job is known, and otherwise uncertain,
      unless somebody cancels it. */
  predicate Fate(now: Service, s: Spine, occ: Occurrence) {
    occ.id in now.rows &&
    var state := now.rows[occ.id].state;
    if Dispatched(s, occ).1 && occ.automation in now.jobs then state.Terminal? || state.Cancelled?
    else state.Uncertain? || state.Cancelled?
  }

  /** Marks the row fired with the receipt. */
  method Fire(service: SchedulerService, occ: Occurrence, receipt: Receipt) returns (ok: bool)
    requires service.Now().Valid() && occ.id in service.rows && service.rows[occ.id].occurrence == occ
    requires service.rows[occ.id].state.Pending? && receipt == ReceiptFor(occ)
    modifies service
    ensures OwnRow(old(service.Now()), service.Now(), occ.id)
    ensures ok <==> service.rows[occ.id].state.Terminal?
    ensures ok ==> occ.automation in service.jobs
    ensures service.locks == old(service.locks) + 1
    ensures ok ==> service.lock(old(service.locks)) && Get(service.fires, occ.id) == Some(service.locks)
    ensures !ok ==> OnlyCancelled(old(service.rows)[occ.id], service.rows[occ.id])
    ensures Smooth(old(service.Now()), service.Now()) && occ.automation in service.jobs ==>
              ok || service.rows[occ.id].state.Cancelled?
  {
    ghost var a := service.Now();
    LockOwns(a, occ.id);
    ok := service.Lock();
    if ok {
      ghost var b := service.Now();
      var error := service.MarkFired(occ.id, receipt);
      ok := error.None?;
      SettleOwns(b, service.Now(), occ.id);
      OwnRowTransitive(a, b, service.Now(), occ.id);
    }
  }

  /** The dispatch of one pending occurrence, and what becomes of its row. */
  method DispatchAndSettle(service: SchedulerService, vault: SessionVault, gateway: WorkGateway,
                           kernel: ExecutionKernel, occ: Occurrence)
    returns (ok: bool)
    requires service.Now().Valid() && occ.id in service.rows && service.rows[occ.id].occurrence == occ
    requires service.rows[occ.id].state.Pending?
    modifies service, vault, gateway, kernel
    ensures OwnRow(old(service.Now()), service.Now(), occ.id)
    ensures Smooth(old(service.Now()), service.Now()) ==>
              Fate(service.Now(), old(Spine(vault.Now(), gateway.Now(), kernel.Now())), occ)
    ensures ok <==> service.rows[occ.id].state.Terminal?
    ensures ok ==> service.lock(old(service.locks)) && Get(service.fires, occ.id) == Some(old(service.locks) + 1)
    ensures ok ==> occ.automation in service.jobs && Linked(Spine(vault.Now(), gateway.Now(), kernel.Now()), occ)
    ensures Spine(vault.Now(), gateway.Now(), kernel.Now())
            == Dispatched(old(Spine(vault.Now(), gateway.Now(), kernel.Now())), occ).0
  {
    ghost var a := service.Now();
    ghost var s := Spine(vault.Now(), gateway.Now(), kernel.Now());
    var admitted := DispatchOccurrence(vault, gateway, kernel, occ);
    ok := false;
    if admitted.Success? {
      AdmittedIsLinked(s, occ);
      ok := Fire(service, occ, admitted.value);
    }
    if !ok {
      ghost var b := service.Now();
      GiveUp(service, occ.id);
      if admitted.Success? {
        OwnRowTransitive(a, b, service.Now(), occ.id);
      }
    }
  }

  /** The job of a fired occurrence, if the lock for looking it up is granted. */
  method JobOf(service: SchedulerService, occ: Occurrence) returns (job: Option<string>)
    requires service.Now().Valid() && occ.id in service.rows && service.rows[occ.id].state.Terminal?
    modifies service
    ensures OwnRow(old(service.Now()), service.Now(), occ.id) && service.rows[occ.id] == old(service.rows)[occ.id]
    ensures job.Some? ==> Get(service.jobs, occ.automation) == job && service.lock(old(service.locks))
    ensures service.locks == old(service.locks) + 1 && service.fires == old(service.fires)
    ensures Smooth(old(service.Now()), service.Now()) ==> Get(service.jobs, occ.automation) == job
  {
    LockOwns(service.Now(), occ.id);
    var locked := service.Lock();
    if locked && occ.automation in service.jobs {
      return Some(service.jobs[occ.automation]);
    }
    return None;
  }

  /** What handling the collected occurrence `occ` reports, given its row before and after. */
  ghost predicate Reported(a: Service, b: Service, occ: Occurrence, fired: Option<string>, failed: bool, did: bool)
    requires occ.id in a.rows && occ.id in b.rows
  {
    var before, after := a.rows[occ.id].state, b.rows[occ.id].state;
    && (Smooth(a, b) ==> !after.Pending? && (!did && before.Pending? ==> after.Cancelled?))
    && (!failed ==> !after.Pending? && (after.Uncertain? ==> before.Uncertain?))
    && (failed && !before.Terminal? ==> !after.Terminal?)
    && (did ==> before.Pending?) && (after.Terminal? && !before.Terminal? ==> did)
    && (fired.Some? ==> after.Terminal? && did && Get(b.jobs, occ.automation) == fired)
    && (Smooth(a, b) && after.Terminal? && !before.Terminal? ==> fired.Some?)
  }

  /** Everything a pass does with one collected occurrence: look again, dispatch, settle. */
  method HandleOccurrence(service: SchedulerService, vault: SessionVault, gateway: WorkGateway,
                          kernel: ExecutionKernel, occ: Occurrence)
    returns (fired: Option<string>, failed: bool, ghost did: bool)
    requires service.Now().Valid() && occ.id in service.rows && service.rows[occ.id].occurrence == occ
    modifies service, vault, gateway, kernel
    ensures OwnRow(old(service.Now()), service.Now(), occ.id)
    ensures Reported(old(service.Now()), service.Now(), occ, fired, failed, did)
    ensures OwnFire(old(service.Now()), service.Now(), occ.id)
    ensures Smooth(old(service.Now()), service.Now()) && did ==>
              Fate(service.Now(), old(Spine(vault.Now(), gateway.Now(), kernel.Now())), occ)
    ensures service.rows[occ.id].state.Terminal? && !old(service.rows)[occ.id].state.Terminal? ==>
              Linked(Spine(vault.Now(), gateway.Now(), kernel.Now()), occ)
    ensures Spine(vault.Now(), gateway.Now(), kernel.Now())
            == Outcome(old(Spine(vault.Now(), gateway.Now(), kernel.Now())), occ, did)
  {
    fired, failed, did := None, false, false;
    ghost var a := service.Now();
    LockOwns(a, occ.id);
    var locked := service.Lock();
    if !locked {
      return None, true, false;
    }
    if !service.rows[occ.id].state.Pending? {
      return;
    }
    did := true;
    ghost var b := service.Now();
    fired, failed := SettleAndReport(service, vault, gateway, kernel, occ);
    OwnRowTransitive(a, b, service.Now(), occ.id);
  }

  /** The part under and after the dispatch: an occurrence that was fired is looked up for its job. */
  method SettleAndReport(service: SchedulerService, vault: SessionVault, gateway: WorkGateway,
                         kernel: ExecutionKernel, occ: Occurrence)
    returns (fired: Option<string>, failed: bool)
    requires service.Now().Valid() && occ.id in service.rows && service.rows[occ.id].occurrence == occ
    requires service.rows[occ.id].state.Pending?
    modifies service, vault, gateway, kernel
    ensures OwnRow(old(service.Now()), service.Now(), occ.id)
    ensures Reported(old(service.Now()), service.Now(), occ, fired, failed, true)
    ensures service.rows[occ.id].state.Terminal? ==>
              && Get(service.fires, occ.id) == Some(old(service.locks) + 1) && service.lock(old(service.locks))
              && old(service.locks) < service.locks && Linked(Spine(vault.Now(), gateway.Now(), kernel.Now()), occ)
    ensures Smooth(old(service.Now()), service.Now()) ==>
              Fate(service.Now(), old(Spine(vault.Now(), gateway.Now(), kernel.Now())), occ)
    ensures Spine(vault.Now(), gateway.Now(), kernel.Now())
            == Dispatched(old(Spine(vault.Now(), gateway.Now(), kernel.Now())), occ).0
  {
    ghost var b := service.Now();
    var ok := DispatchAndSettle(service, vault, gateway, kernel, occ);
    ghost var c := service.Now();
    fired, failed := None, !ok;
    if ok {
      fired := JobOf(service, occ);
      OwnRowTransitive(b, c, service.Now(), occ.id);
    }
  }

  // ---------------------------------------------------------------- collecting

  ghost function PendingIds(rows: map<string, Row>): set<string> {
    set id | id in rows && rows[id].state.Pending?
  }

  /** What the pass starts from: the lock is taken, what others cancelled shows, and what fell
      due is admitted. */
  function Gathered(a: Service, due: Option<seq<Occurrence>>): (Service, bool) {
    var (locked, ok) := a.Locked();
    if ok then locked.Admitted(due) else (locked, false)
  }

  /** What that does to the rows: those there before are at most cancelled, new ones are
      pending occurrences that fell due, and nothing else changes. */
  ghost predicate GatheredFrame(a: Service, b: Service, due: Option<seq<Occurrence>>) {
    && b == a.(order := b.order, rows := b.rows, saves := b.saves, locks := b.locks) && CancelsKept(a, b)
    && a.order <= b.order && a.saves <= b.saves && a.locks <= b.locks && b.Valid()
    && (forall id :: id in a.rows ==> id in b.rows && OnlyCancelled(a.rows[id], b.rows[id]))
    && (forall id :: id in b.rows && id !in a.rows ==> due.Some? && NewRow(b.rows[id], due.value))
  }

  lemma GatheredKeeps(a: Service, due: Option<seq<Occurrence>>)
    requires a.Valid()
    ensures GatheredFrame(a, Gathered(a, due).0, due)
  {
    var (l, ok) := a.Locked();
    LockedFrame(a, due);
    if ok && l.healthy && due.Some? {
      WithDueAdmits(l, due.value);
      WithDueValid(l, due.value);
      AdmittedFrame(l, due);
      FrameThenFrame(a, l, l.Admitted(due).0, due);
    }
  }

  lemma LockedFrame(a: Service, due: Option<seq<Occurrence>>)
    requires a.Valid()
    ensures GatheredFrame(a, a.Locked().0, due) && a.Locked().0.rows.Keys == a.rows.Keys
  {
    LockCancels(a);
  }

  lemma GatheredCancels(a: Service, due: Option<seq<Occurrence>>)
    requires a.Valid()
    ensures var start := Gathered(a, due).0; CancelsKept(a, start) && SameScript(a, start)
  {
    GatheredKeeps(a, due);
  }

  /** Nothing but a refused admission, a lock or a save stops the pass from gathering, and then
      everything that fell due is there. */
  lemma GatheredAll(a: Service, due: Option<seq<Occurrence>>)
    ensures due.Some? && Smooth(a, Gathered(a, due).0) ==> Gathered(a, due).1
    ensures Gathered(a, due).1 ==>
              a.lock(a.locks) && a.healthy && due.Some?
              && forall occ :: occ in due.value ==> occ.id in Gathered(a, due).0.rows
  {
    var (l, ok) := a.Locked();
    if !ok {
      assert !a.lock(a.locks) && l.locks == a.locks + 1;
    } else if l.healthy && due.Some? {
      WithDueAdmits(l, due.value);
      var (start, gathered) := l.Admitted(due);
      assert !gathered ==> !l.disk(l.saves) && start.saves == l.saves + 1;
    }
  }

  lemma AdmittedFrame(l: Service, due: Option<seq<Occurrence>>)
    requires l.Valid() && due.Some? && Admits(l, l.WithDue(due.value), due.value) && l.WithDue(due.value).Valid()
    ensures GatheredFrame(l, l.Admitted(due).0, due)
  {
    AdmittedCancels(l, due);
  }

  lemma AdmittedCancels(l: Service, due: Option<seq<Occurrence>>)
    requires due.Some? && Admits(l, l.WithDue(due.value), due.value)
    ensures CancelsKept(l, l.Admitted(due).0)
  {
    RowsKeptCancels(l, l.Admitted(due).0);
  }

  lemma RowsKeptCancels(a: Service, b: Service)
    requires a.locks == b.locks && a.fires == b.fires
    requires forall id :: id in a.rows ==> id in b.rows && b.rows[id] == a.rows[id]
    ensures CancelsKept(a, b)
  {
    forall id ensures RowKept(a, b, id) {
    }
  }

  lemma FrameThenFrame(a: Service, b: Service, c: Service, due: Option<seq<Occurrence>>)
    requires GatheredFrame(a, b, due) && GatheredFrame(b, c, due) && a.rows.Keys == b.rows.Keys
    requires forall id :: id in b.rows ==> c.rows[id] == b.rows[id]
    ensures GatheredFrame(a, c, due)
  {
    CancelsTransitive(a, b, c);
  }

  /** The collected occurrences, each under its id. */
  method Unique(pending: seq<Occurrence>) returns (unique: map<string, Occurrence>)
    ensures forall occ :: occ in pending ==> occ.id in unique
    ensures forall id :: id in unique ==> unique[id].id == id && unique[id] in pending
  {
    unique := map[];
    for i := 0 to |pending|
      invariant forall occ :: occ in pending[..i] ==> occ.id in unique
      invariant forall id :: id in unique ==> unique[id].id == id && unique[id] in pending[..i]
    {
      if pending[i].id !in unique {
        unique := unique[pending[i].id := pending[i]];
      }
      assert pending[..i + 1] == pending[..i] + [pending[i]];
    }
    assert pending[..|pending|] == pending;
  }

  /** The collected occurrences are the rows' own. */
  ghost predicate Owned(rows: map<string, Row>, unique: map<string, Occurrence>) {
    forall id :: id in unique ==> id in rows && rows[id].occurrence == unique[id] && unique[id].id == id
  }

  /** The pending occurrences before and after admitting what fell due, each once: exactly the
      ones pending now. A pass that is stopped here collects nothing. */
  method Collect(service: SchedulerService, due: Option<seq<Occurrence>>)
    returns (unique: map<string, Occurrence>, ok: bool)
    requires service.Now().Valid()
    modifies service
    ensures (service.Now(), ok) == Gathered(old(service.Now()), due)
    ensures unique.Keys == if ok then PendingIds(service.rows) else {}
    ensures Owned(service.rows, unique) && service.Now().Valid()
  {
    unique, ok := map[], false;
    ghost var a := service.Now();
    GatheredKeeps(a, due);
    var locked := service.Lock();
    if !locked || !service.healthy {
      return;
    }
    var pending := service.PendingOccurrences();
    ghost var b := service.Now();
    ok := service.AdmitDue(due);
    if !ok {
      return;
    }
    WithDueAdmits(b, due.value);
    var again := service.PendingOccurrences();
    unique := Unique(pending + again);
    forall id | id in PendingIds(service.rows) ensures id in unique {
      assert service.rows[id].occurrence in pending + again;
    }
    forall id | id in unique ensures id in PendingIds(service.rows) && service.rows[id].occurrence == unique[id] {
      assert unique[id] in pending || unique[id] in again;
    }
  }

  // ---------------------------------------------------------------- the whole pass

  /** What the rows look like while the pass runs: `a` after collecting, `b` now. The
      occurrences in `left` are still to be handled. */
  ghost predicate Passing(a: Service, b: Service, collected: set<string>, left: set<string>) {
    && Frame(a, b) && b.Valid() && left <= collected <= PendingIds(a.rows)
    && (forall id :: id in b.rows && (id !in collected || id in left) ==> OnlyCancelled(a.rows[id], b.rows[id]))
    && (forall id :: id in collected && id !in left ==>
          Handled(a.rows[id], b.rows[id]) && (Smooth(a, b) ==> !b.rows[id].state.Pending?))
  }

  ghost predicate AllLinked(a: Service, b: Service, s: Spine) {
    forall id :: id in a.rows && id in b.rows && b.rows[id].state.Terminal? && !a.rows[id].state.Terminal? ==>
      Linked(s, b.rows[id].occurrence)
  }

  lemma OnePassed(a: Service, b: Service, c: Service, collected: set<string>, left: set<string>, id: string)
    requires Passing(a, b, collected, left) && id in left && OwnRow(b, c, id)
    requires Smooth(b, c) ==> !c.rows[id].state.Pending?
    ensures Passing(a, c, collected, left - {id})
  {
    forall other | other in c.rows
      ensures Handled(a.rows[other], c.rows[other])
              && (other !in collected || other in left - {id} ==> OnlyCancelled(a.rows[other], c.rows[other]))
    {
      if other != id {
        assert OnlyCancelled(b.rows[other], c.rows[other]);
      } else {
        assert OnlyCancelled(a.rows[id], b.rows[id]);
      }
    }
    if Smooth(a, c) {
      assert Smooth(a, b) && Smooth(b, c);
    }
  }

  lemma LinksPassed(a: Service, b: Service, c: Service, s: Spine, occ: Occurrence, did: bool)
    requires AllLinked(a, b, s) && OwnRow(b, c, occ.id) && b.rows[occ.id].occurrence == occ
             && a.rows.Keys == b.rows.Keys
    requires c.rows[occ.id].state.Terminal? && !b.rows[occ.id].state.Terminal? ==> Linked(Outcome(s, occ, did), occ)
    ensures AllLinked(a, c, Outcome(s, occ, did))
  {
    forall id | id in a.rows && id in c.rows && c.rows[id].state.Terminal? && !a.rows[id].state.Terminal?
      ensures Linked(Outcome(s, occ, did), c.rows[id].occurrence)
    {
      if id != occ.id || b.rows[id].state.Terminal? {
        assert id != occ.id ==> OnlyCancelled(b.rows[id], c.rows[id]);
        assert Linked(s, b.rows[id].occurrence);
        if did && occ.Compiles() {
          AttemptKeepsLink(s, occ, STEPS, b.rows[id].occurrence);
        }
      }
    }
  }

  ghost predicate AllFired(rows: map<string, Row>, ids: set<string>) {
    forall id :: id in ids && id in rows ==> rows[id].state.Terminal? || rows[id].state.Cancelled?
  }

  /** Some of these occurrences were not fired. */
  ghost predicate SomeUnfired(rows: map<string, Row>, ids: set<string>) {
    exists id :: id in ids && id in rows && !rows[id].state.Terminal?
  }

  ghost predicate OnceEach(ids: seq<string>, among: set<string>) {
    && (forall i :: 0 <= i < |ids| ==> ids[i] in among)
    && (forall i, j :: 0 <= i < j < |ids| ==> ids[i] != ids[j])
  }

  /** The three owners after dispatching these occurrences one after the other. */
  ghost function AfterDispatching(s: Spine, occs: seq<Occurrence>): Spine {
    if occs == [] then s else Dispatched(AfterDispatching(s, occs[..|occs| - 1]), occs[|occs| - 1]).0
  }

  ghost function Ids(occs: seq<Occurrence>): (ids: seq<string>)
    ensures |ids| == |occs| && forall i :: 0 <= i < |ids| ==> ids[i] == occs[i].id
  {
    seq(|occs|, i requires 0 <= i < |occs| => occs[i].id)
  }

  /** `dispatched` lists what was dispatched so far, among the handled occurrences `done`,
      each once; `s` is what that made of the owners, and only these rows were fired. */
  ghost predicate DispatchLog(before: Spine, s: Spine, now: Service, dispatched: seq<Occurrence>, done: set<string>) {
    && s == AfterDispatching(before, dispatched) && OnceEach(Ids(dispatched), done)
    && OwnOccurrences(now.rows, dispatched) && FiredAmong(now.rows, dispatched, done)
  }

  ghost predicate OwnOccurrences(rows: map<string, Row>, dispatched: seq<Occurrence>) {
    forall i :: 0 <= i < |dispatched| ==> dispatched[i].id in rows && rows[dispatched[i].id].occurrence == dispatched[i]
  }

  ghost predicate FiredAmong(rows: map<string, Row>, dispatched: seq<Occurrence>, done: set<string>) {
    forall id :: id in done && id in rows && rows[id].state.Terminal? ==> id in Ids(dispatched)
  }

  /** When locks and saves worked: everything handled was dispatched unless it was cancelled
      first, and everything dispatched met its fate. */
  ghost predicate FateLog(start: Service, now: Service, before: Spine, dispatched: seq<Occurrence>, done: set<string>) {
    Smooth(start, now) ==>
      && (forall id :: id in done && id in now.rows ==> id in Ids(dispatched) || now.rows[id].state.Cancelled?)
      && (forall i :: 0 <= i < |dispatched| ==> Fate(now, AfterDispatching(before, dispatched[..i]), dispatched[i]))
  }

  /** `fired` lists the jobs of the fired occurrences `announced`, each once; nothing is
      missing when all locks were granted. */
  ghost predicate FiredLog(start: Service, now: Service, fired: seq<string>, announced: seq<string>,
                           done: set<string>)
  {
    && |fired| == |announced| && OnceEach(announced, done)
    && (forall i :: 0 <= i < |fired| ==> JobFired(now, announced[i], fired[i]))
    && (Smooth(start, now) ==>
        forall id :: id in done && id in now.rows && now.rows[id].state.Terminal? ==> id in announced)
  }

  predicate JobFired(now: Service, id: string, job: string) {
    id in now.rows && now.rows[id].state.Terminal? && Get(now.jobs, now.rows[id].occurrence.automation) == Some(job)
  }

  /** What holds between two occurrences of the pass. */
  ghost predicate Between(start: Service, now: Service, before: Spine, s: Spine, unique: map<string, Occurrence>,
                          left: set<string>, ok: bool, dispatched: seq<Occurrence>)
  {
    && left <= unique.Keys && Passing(start, now, unique.Keys, left) && AllLinked(start, now, s)
    && Owned(now.rows, unique)
    && (if ok then AllFired(now.rows, unique.Keys - left) else SomeUnfired(now.rows, unique.Keys - left))
    && DispatchLog(before, s, now, dispatched, unique.Keys - left)
  }

  lemma OneMore(start: Service, b: Service, c: Service, before: Spine, s: Spine, unique: map<string, Occurrence>,
                left: set<string>, ok: bool, dispatched: seq<Occurrence>, id: string, fired: Option<string>,
                failed: bool, did: bool)
    requires Between(start, b, before, s, unique, left, ok, dispatched) && id in left && OwnRow(b, c, id)
    requires Reported(b, c, unique[id], fired, failed, did)
    requires AllLinked(start, c, Outcome(s, unique[id], did))
    ensures Between(start, c, before, Outcome(s, unique[id], did), unique, left - {id}, ok && !failed,
                    if did then dispatched + [unique[id]] else dispatched)
  {
    var done := unique.Keys - left;
    assert unique.Keys - (left - {id}) == done + {id};
    assert OnlyCancelled(start.rows[id], b.rows[id]);
    OnePassed(start, b, c, unique.Keys, left, id);
    OthersStay(b.rows, c.rows, unique, done, id);
    MoreDispatched(before, s, b, c, dispatched, done, unique[id], did);
  }

  /** The occurrences handled before keep their rows, up to cancellation. */
  lemma OthersStay(a: map<string, Row>, b: map<string, Row>, unique: map<string, Occurrence>, ids: set<string>,
                   own: string)
    requires a.Keys == b.Keys && Owned(a, unique) && own in b && b[own].occurrence == a[own].occurrence && own !in ids
    requires forall id :: id in b && id != own ==> OnlyCancelled(a[id], b[id])
    ensures Owned(b, unique) && (AllFired(a, ids) ==> AllFired(b, ids)) && (SomeUnfired(a, ids) ==> SomeUnfired(b, ids))
  {
    forall id | id in unique ensures id in b && b[id].occurrence == unique[id] {
      assert id in a && (id != own ==> OnlyCancelled(a[id], b[id]));
    }
    if AllFired(a, ids) {
      forall id | id in ids && id in b ensures b[id].state.Terminal? || b[id].state.Cancelled? {
        assert OnlyCancelled(a[id], b[id]) && id in a;
      }
    }
    if SomeUnfired(a, ids) {
      var id :| id in ids && id in a && !a[id].state.Terminal?;
      assert OnlyCancelled(a[id], b[id]) && id in b && !b[id].state.Terminal?;
    }
  }

  lemma MoreDispatched(before: Spine, s: Spine, b: Service, c: Service, dispatched: seq<Occurrence>,
                       done: set<string>, occ: Occurrence, did: bool)
    requires DispatchLog(before, s, b, dispatched, done) && occ.id !in done && OwnRow(b, c, occ.id)
    requires b.rows[occ.id].occurrence == occ && !b.rows[occ.id].state.Terminal?
    requires c.rows[occ.id].state.Terminal? ==> did
    ensures DispatchLog(before, Outcome(s, occ, did), c, if did then dispatched + [occ] else dispatched,
                        done + {occ.id})
  {
    RowsStay(b, c, occ.id);
    if did {
      assert (dispatched + [occ])[..|dispatched|] == dispatched;
      assert AfterDispatching(before, dispatched + [occ]) == Dispatched(s, occ).0;
      IdsAppend(dispatched, occ);
      OnceMore(Ids(dispatched), done, occ.id);
      LoggedMore(b.rows, c.rows, dispatched, done, occ);
    } else {
      LoggedSame(b.rows, c.rows, dispatched, done, occ);
    }
  }

  /** Rows keep their occurrence, and no row but the own one is fired. */
  ghost predicate RowsSame(a: map<string, Row>, b: map<string, Row>, own: string) {
    a.Keys == b.Keys && forall id :: id in b ==>
      b[id].occurrence == a[id].occurrence && (id != own && b[id].state.Terminal? ==> a[id].state.Terminal?)
  }

  lemma RowsStay(b: Service, c: Service, own: string)
    requires OwnRow(b, c, own)
    ensures RowsSame(b.rows, c.rows, own)
  {
    forall id | id in c.rows
      ensures c.rows[id].occurrence == b.rows[id].occurrence
              && (id != own && c.rows[id].state.Terminal? ==> b.rows[id].state.Terminal?)
    {
      assert id != own ==> OnlyCancelled(b.rows[id], c.rows[id]);
    }
  }

  lemma LoggedMore(a: map<string, Row>, b: map<string, Row>, dispatched: seq<Occurrence>, done: set<string>,
                   occ: Occurrence)
    requires RowsSame(a, b, occ.id) && OwnOccurrences(a, dispatched) && FiredAmong(a, dispatched, done)
    requires occ.id in a && a[occ.id].occurrence == occ
    ensures OwnOccurrences(b, dispatched + [occ]) && FiredAmong(b, dispatched + [occ], done + {occ.id})
  {
    IdsAppend(dispatched, occ);
  }

  lemma LoggedSame(a: map<string, Row>, b: map<string, Row>, dispatched: seq<Occurrence>, done: set<string>,
                   occ: Occurrence)
    requires RowsSame(a, b, occ.id) && OwnOccurrences(a, dispatched) && FiredAmong(a, dispatched, done)
    requires occ.id in b && !b[occ.id].state.Terminal? && occ.id !in done
    ensures OwnOccurrences(b, dispatched) && FiredAmong(b, dispatched, done + {occ.id})
  {
  }

  lemma IdsAppend(occs: seq<Occurrence>, occ: Occurrence)
    ensures Ids(occs + [occ]) == Ids(occs) + [occ.id]
  {
  }

  lemma OnceMore(ids: seq<string>, among: set<string>, id: string)
    requires OnceEach(ids, among) && id !in among
    ensures OnceEach(ids + [id], among + {id})
  {
  }

  lemma MoreFired(start: Service, b: Service, c: Service, fired: seq<string>, announced: seq<string>,
                  done: set<string>, occ: Occurrence, job: Option<string>, failed: bool, did: bool)
    requires FiredLog(start, b, fired, announced, done) && occ.id !in done && OwnRow(b, c, occ.id) && Frame(start, b)
    requires b.rows[occ.id].occurrence == occ && !b.rows[occ.id].state.Terminal?
    requires Reported(b, c, occ, job, failed, did)
    ensures FiredLog(start, c, WithJob(fired, job), if job.Some? then announced + [occ.id] else announced,
                     done + {occ.id})
  {
    assert Smooth(start, c) ==> Smooth(start, b) && Smooth(b, c);
    forall id | id in c.rows && id != occ.id ensures id in b.rows && OnlyCancelled(b.rows[id], c.rows[id]) {
    }
    forall i | 0 <= i < |fired| ensures JobFired(c, announced[i], fired[i]) {
      assert JobFired(b, announced[i], fired[i]);
    }
    if job.Some? {
      OnceMore(announced, done, occ.id);
    }
  }

  function WithJob(fired: seq<string>, job: Option<string>): seq<string> {
    if job.Some? then fired + [job.value] else fired
  }

  /** What a pass did: the occurrences it dispatched, the jobs it reports as fired, and whose. */
  datatype PassLog = PassLog(dispatched: seq<Occurrence>, fired: seq<string>, announced: seq<string>)

  /** What the pass keeps between two occurrences, with everything it logs. */
  ghost predicate Pass(start: Service, now: Service, before: Spine, s: Spine, unique: map<string, Occurrence>,
                       left: set<string>, ok: bool, log: PassLog)
  {
    && Between(start, now, before, s, unique, left, ok, log.dispatched)
    && FiredLog(start, now, log.fired, log.announced, unique.Keys - left)
    && FateLog(start, now, before, log.dispatched, unique.Keys - left) && CancelsKept(start, now)
    && FiredUnderLocks(start, now)
  }

  function LogMore(log: PassLog, occ: Occurrence, job: Option<string>, did: bool): PassLog {
    PassLog(if did then log.dispatched + [occ] else log.dispatched, WithJob(log.fired, job),
            if job.Some? then log.announced + [occ.id] else log.announced)
  }

  lemma PassStep(start: Service, b: Service, c: Service, before: Spine, s: Spine, unique: map<string, Occurrence>,
                 left: set<string>, ok: bool, log: PassLog, id: string, job: Option<string>, failed: bool, did: bool)
    requires id in left && Pass(start, b, before, s, unique, left, ok, log) && OwnRow(b, c, id)
    requires Reported(b, c, unique[id], job, failed, did) && OwnFire(b, c, id)
    requires Smooth(b, c) && did ==> Fate(c, s, unique[id])
    requires c.rows[id].state.Terminal? && !b.rows[id].state.Terminal? ==>
               Linked(Outcome(s, unique[id], did), unique[id])
    ensures Pass(start, c, before, Outcome(s, unique[id], did), unique, left - {id}, ok && !failed,
                 LogMore(log, unique[id], job, did))
  {
    assert OnlyCancelled(start.rows[id], b.rows[id]);
    CancelsTransitive(start, b, c);
    OwnFires(b, c, id);
    LocksTransitive(start, b, c, id);
    LinksPassed(start, b, c, s, unique[id], did);
    OneMore(start, b, c, before, s, unique, left, ok, log.dispatched, id, job, failed, did);
    MoreFired(start, b, c, log.fired, log.announced, unique.Keys - left, unique[id], job, failed, did);
    MoreFates(start, b, c, before, s, log.dispatched, unique.Keys - left, unique[id], did);
    assert unique.Keys - (left - {id}) == unique.Keys - left + {id};
  }

  lemma SettledStays(b: Service, c: Service, own: string, id: string)
    requires OwnRow(b, c, own) && id in b.rows && b.rows[id].state.Terminal?
    ensures Get(c.fires, id) == Get(b.fires, id)
  {
    assert RowKept(b, c, id);
  }

  lemma OwnFires(a: Service, b: Service, own: string)
    requires OwnRow(a, b, own) && OwnFire(a, b, own)
    ensures FiredUnderLocks(a, b)
  {
    forall id ensures FiredUnderLock(a, b, id) {
      assert id in b.rows && id != own ==> OnlyCancelled(a.rows[id], b.rows[id]);
    }
  }

  lemma LocksTransitive(a: Service, b: Service, c: Service, own: string)
    requires FiredUnderLocks(a, b) && FiredUnderLocks(b, c) && Frame(a, b) && OwnRow(b, c, own)
    ensures FiredUnderLocks(a, c)
  {
    forall id ensures FiredUnderLock(a, c, id) {
      assert FiredUnderLock(a, b, id) && FiredUnderLock(b, c, id);
      if id in b.rows && b.rows[id].state.Terminal? {
        SettledStays(b, c, own, id);
      }
    }
  }

  lemma MoreFates(start: Service, b: Service, c: Service, before: Spine, s: Spine, dispatched: seq<Occurrence>,
                  done: set<string>, occ: Occurrence, did: bool)
    requires FateLog(start, b, before, dispatched, done) && s == AfterDispatching(before, dispatched)
    requires Frame(start, b) && OwnRow(b, c, occ.id) && OnceEach(Ids(dispatched), done) && occ.id !in done
    requires Smooth(b, c) && did ==> Fate(c, s, occ)
    requires Smooth(b, c) && !did ==> c.rows[occ.id].state.Cancelled?
    ensures FateLog(start, c, before, if did then dispatched + [occ] else dispatched, done + {occ.id})
  {
    if Smooth(start, c) {
      assert Smooth(start, b) && Smooth(b, c);
      var later := if did then dispatched + [occ] else dispatched;
      forall i | 0 <= i < |later| ensures Fate(c, AfterDispatching(before, later[..i]), later[i]) {
        assert later[..i] == dispatched[..i];
        if i < |dispatched| {
          assert Ids(dispatched)[i] == dispatched[i].id;
          FateStays(b, c, AfterDispatching(before, dispatched[..i]), dispatched[i], occ.id);
        } else {
          assert dispatched[..i] == dispatched;
        }
      }
      IdsAppend(dispatched, occ);
      forall id | id in done && id in c.rows ensures id in Ids(later) || c.rows[id].state.Cancelled? {
        assert OnlyCancelled(b.rows[id], c.rows[id]);
      }
    }
  }

  lemma FateStays(b: Service, c: Service, s: Spine, occ: Occurrence, own: string)
    requires OwnRow(b, c, own) && Fate(b, s, occ) && occ.id != own
    ensures Fate(c, s, occ)
  {
    assert OnlyCancelled(b.rows[occ.id], c.rows[occ.id]);
  }

  /** The occurrence to be handled next is the row's own, and open. */
  lemma NextInLine(start: Service, b: Service, before: Spine, s: Spine, unique: map<string, Occurrence>,
                   left: set<string>, ok: bool, log: PassLog, id: string)
    requires id in left && Pass(start, b, before, s, unique, left, ok, log)
    ensures b.Valid() && id in unique && id in b.rows && unique[id].id == id && b.rows[id].occurrence == unique[id]
  {
    assert OnlyCancelled(start.rows[id], b.rows[id]);
  }

  /** A step of the pass on one occurrence of those left. */
  method HandleNext(service: SchedulerService, vault: SessionVault, gateway: WorkGateway, kernel: ExecutionKernel,
                    id: string, unique: map<string, Occurrence>, ghost start: Service, ghost before: Spine,
                    ghost left: set<string>, ghost ok: bool, ghost log: PassLog)
    returns (job: Option<string>, failed: bool, ghost later: PassLog)
    requires id in left
    requires Pass(start, service.Now(), before, Spine(vault.Now(), gateway.Now(), kernel.Now()), unique, left, ok, log)
    modifies service, vault, gateway, kernel
    ensures Pass(start, service.Now(), before, Spine(vault.Now(), gateway.Now(), kernel.Now()), unique, left - {id},
                 ok && !failed, later)
    ensures later.fired == WithJob(log.fired, job)
  {
    ghost var b := service.Now();
    ghost var s := Spine(vault.Now(), gateway.Now(), kernel.Now());
    NextInLine(start, b, before, s, unique, left, ok, log, id);
    ghost var did;
    job, failed, did := HandleOccurrence(service, vault, gateway, kernel, unique[id]);
    later := LogMore(log, unique[id], job, did);
    PassStep(start, b, service.Now(), before, s, unique, left, ok, log, id, job, failed, did);
  }

  /** What a pass over the occurrences `collected` made of the rows and of the three owners. */
  ghost predicate Passed(start: Service, now: Service, before: Spine, s: Spine, collected: set<string>, log: PassLog) {
    && Passing(start, now, collected, {}) && AllLinked(start, now, s)
    && DispatchLog(before, s, now, log.dispatched, collected)
    && FiredLog(start, now, log.fired, log.announced, collected)
    && FateLog(start, now, before, log.dispatched, collected) && CancelsKept(start, now)
    && FiredUnderLocks(start, now)
  }

  lemma PassStarts(start: Service, before: Spine, unique: map<string, Occurrence>)
    requires start.Valid() && unique.Keys == PendingIds(start.rows) && Owned(start.rows, unique)
    ensures Pass(start, start, before, before, unique, unique.Keys, true, PassLog([], [], []))
  {
    assert unique.Keys - unique.Keys == {};
  }

  lemma PassEnds(a: Service, start: Service, now: Service, before: Spine, s: Spine, unique: map<string, Occurrence>,
                 ok: bool, log: PassLog)
    requires Pass(start, now, before, s, unique, {}, ok, log)
    requires CancelsKept(a, start) && SameScript(a, start)
    ensures CancelsKept(a, now)
    ensures Passed(start, now, before, s, unique.Keys, log)
    ensures if ok then AllFired(now.rows, unique.Keys) else SomeUnfired(now.rows, unique.Keys)
  {
    assert unique.Keys - {} == unique.Keys;
    CancelsTransitive(a, start, now);
  }

  /** The pass. `start` is the service once the pass has looked and admitted what fell due;
      `gathered` says whether it got that far, and if it did not nothing else happens. Then
      exactly the pending occurrences are handled, whatever happens to each of them: the three
      owners are left as by dispatching some of them one after the other, none twice. A fired
      one carries the receipt of its own Work and Run, that Work points at that Run, and its
      job is among those returned. With all locks granted and all saves successful everything
      is dispatched that nobody cancelled first, is fired exactly if the dispatch admits it and
      its job is known, and is uncertain otherwise. A pass without error fired all that nobody
      cancelled; one with an error did not get going, or left an occurrence of its own unfired. */
  method FireDueChecked(service: SchedulerService, vault: SessionVault, gateway: WorkGateway,
                        kernel: ExecutionKernel, due: Option<seq<Occurrence>>)
    returns (fired: seq<string>, ok: bool, ghost gathered: bool, ghost start: Service, ghost log: PassLog)
    requires service.Now().Valid()
    modifies service, vault, gateway, kernel
    ensures (start, gathered) == Gathered(old(service.Now()), due) && log.fired == fired
    ensures Passed(start, service.Now(), old(Spine(vault.Now(), gateway.Now(), kernel.Now())),
                   Spine(vault.Now(), gateway.Now(), kernel.Now()),
                   if gathered then PendingIds(start.rows) else {}, log)
    ensures gathered ==> if ok then AllFired(service.rows, PendingIds(start.rows))
                         else SomeUnfired(service.rows, PendingIds(start.rows))
    ensures !gathered ==> !ok && service.Now() == start && log == PassLog([], [], [])
    ensures CancelsKept(old(service.Now()), service.Now())
  {
    log := PassLog([], [], []);
    ghost var a := service.Now();
    GatheredCancels(a, due);
    ghost var before := Spine(vault.Now(), gateway.Now(), kernel.Now());
    fired := [];
    var unique;
    unique, ok := Collect(service, due);
    gathered, start := ok, service.Now();
    if !ok {
      return;
    }
    var left := unique.Keys;
    PassStarts(start, before, unique);
    while left != {}
      invariant log.fired == fired
      invariant Pass(start, service.Now(), before, Spine(vault.Now(), gateway.Now(), kernel.Now()), unique, left, ok,
                     log)
      decreases |left|
    {
      var id :| id in left;
      var job, failed;
      job, failed, log := HandleNext(service, vault, gateway, kernel, id, unique, start, before, left, ok, log);
      ok := ok && !failed;
      if job.Some? {
        fired := fired + [job.value];
      }
      left := left - {id};
    }
    PassEnds(a, start, service.Now(), before, Spine(vault.Now(), gateway.Now(), kernel.Now()), unique, ok, log);
  }

  /** A cancellation is final. Whenever taking a lock of the pass shows that others cancelled an
      occurrence that was pending or uncertain and not yet fired, it is cancelled in the end and
      its job is not reported for it; and nothing is cancelled otherwise. */
  lemma CancellationIsFinal(a: Service, b: Service, log: PassLog, done: set<string>, n: nat, id: string)
    requires CancelsKept(a, b) && FiredLog(a, b, log.fired, log.announced, done)
    requires id in a.rows && (a.rows[id].state.Pending? || a.rows[id].state.Uncertain?)
    ensures a.locks <= n < b.locks && a.lock(n) && id in a.cancels(n) && !(id in b.fires && b.fires[id] <= n) ==>
              id in b.rows && b.rows[id].state.Cancelled? && id !in log.announced
    ensures id in b.rows && b.rows[id].state.Cancelled? ==>
              exists m: nat :: a.locks <= m < b.locks && a.lock(m) && id in a.cancels(m)
  {
    assert RowKept(a, b, id);
    if a.locks <= n < b.locks && a.lock(n) && id in a.cancels(n) {
      assert CancelSeen(a, b, n, id);
    }
    if id in log.announced {
      var i :| 0 <= i < |log.announced| && log.announced[i] == id;
      assert JobFired(b, log.announced[i], log.fired[i]);
    }
    if b.rows[id].state.Cancelled? {
      var m: nat :| CancelSeen(a, b, m, id);
    }
  }

  /** What the pass means for the rows that were there before it. If what fell due was not
      refused and every lock and save of the pass succeeded, then every occurrence pending
      before it, and every one that fell due, is fired, uncertain or cancelled after it. */
  lemma NoneLeftPending(a: Service, due: Option<seq<Occurrence>>, b: Service)
    requires a.Valid() && due.Some? && Smooth(a, b)
    requires var (start, gathered) := Gathered(a, due);
             Passing(start, b, if gathered then PendingIds(start.rows) else {}, {})
    ensures Gathered(a, due).1
    ensures forall id :: id in a.rows && a.rows[id].state.Pending? ==> id in b.rows && !b.rows[id].state.Pending?
    ensures forall occ :: occ in due.value && occ.id !in a.rows ==> occ.id in b.rows && !b.rows[occ.id].state.Pending?
  {
    GatheredKeeps(a, due);
    GatheredAll(a, due);
    var (start, gathered) := Gathered(a, due);
    assert Smooth(a, start) && Smooth(start, b);
    forall id | id in start.rows ensures id in b.rows && !b.rows[id].state.Pending? {
      if id in PendingIds(start.rows) {
        assert Handled(start.rows[id], b.rows[id]);
      } else {
        assert OnlyCancelled(start.rows[id], b.rows[id]);
      }
    }
  }
}
