/** The execution kernel: the in-memory table of Runs and the counter behind the ids
    it mints. */
module ExecutionKernelModel {
  import opened Basics
  import opened Lifecycle

  /** The occurrence a scheduler Run was opened for. */
  datatype Origin = Origin(automation: string, revision: string, generation: nat, occurrence: string)

  /** What a reader finds in a Run's context snapshot: text that is not JSON, or the
      optional fields the two callers look at. */
  datatype Context = Unreadable | Readable(agent: Option<string>, binding: Option<string>, origin: Option<Origin>)

  datatype Run = Run(session: string, objective: string, phase: State, context: Context, pendingApproval: bool)

  function MintedId(n: nat): string {
    "ex:" + Decimal(n)
  }

  datatype Kernel = Kernel(runs: map<string, Run>, counter: nat) {

    /** No id the counter has yet to mint is taken. */
    ghost predicate CounterAhead() {
      forall n: nat :: n > counter ==> MintedId(n) !in runs
    }

    function BeginNamed(id: string, session: string, objective: string, context: Context): Kernel {
      if id in runs then this
      else this.(runs := runs[id := Run(session, objective, Ready, context, false)])
    }

    /** Opens a Run under the next minted id, `MintedId(counter + 1)`. */
    function Begin(session: string, objective: string, context: Context): Kernel {
      this.(counter := counter + 1).BeginNamed(MintedId(counter + 1), session, objective, context)
    }

    predicate MayMove(id: string, to: State) {
      && id in runs
      && KernelMay(runs[id].phase, to)
      && !(runs[id].phase.WaitingApproval? && !to.WaitingApproval? && runs[id].pendingApproval)
    }

    function Transition(id: string, to: State): (Kernel, bool) {
      if MayMove(id, to) then (this.(runs := runs[id := runs[id].(phase := to)]), true) else (this, false)
    }
  }

  /** A Run never changes owner, objective or context, a finished Run stays as it is, and
      no Run disappears. */
  ghost predicate Carries(a: Kernel, b: Kernel) {
    RunsKept(a.runs, b.runs) && a.counter <= b.counter
  }

  ghost predicate RunsKept(a: map<string, Run>, b: map<string, Run>) {
    forall id :: id in a ==> id in b && SameRun(a[id], b[id])
  }

  predicate SameRun(a: Run, b: Run) {
    && a.session == b.session && a.objective == b.objective && a.context == b.context
    && (a.phase.Terminal() ==> b.phase == a.phase)
  }

  /** No Run runs in `b` that did not already run in `a`. */
  ghost predicate StartsNothing(a: Kernel, b: Kernel) {
    forall id :: id in b.runs && b.runs[id].phase.Running? ==> id in a.runs && a.runs[id].phase.Running?
  }

  lemma MintedIdInjective(m: nat, n: nat)
    requires MintedId(m) == MintedId(n)
    ensures m == n
  {
    assert Decimal(m) == MintedId(m)[3..] && Decimal(n) == MintedId(n)[3..];
    DecimalInjective(m, n);
  }

  lemma BeginIsFresh(k: Kernel, session: string, objective: string, context: Context)
    requires k.CounterAhead()
    ensures var k' := k.Begin(session, objective, context); var id := MintedId(k.counter + 1);
            && k'.CounterAhead() && id !in k.runs
            && k'.runs == k.runs[id := Run(session, objective, Ready, context, false)]
  {
    var k' := k.Begin(session, objective, context);
    forall n | n > k'.counter ensures MintedId(n) !in k'.runs {
      if MintedId(n) == MintedId(k.counter + 1) {
        MintedIdInjective(n, k.counter + 1);
      }
    }
  }

  class ExecutionKernel {
    var runs: map<string, Run>
    var counter: nat

    ghost function Now(): Kernel reads this {
      Kernel(runs, counter)
    }

    constructor ()
      ensures Now() == Kernel(map[], 0)
    {
      runs, counter := map[], 0;
    }

    method BeginNamed(id: string, session: string, objective: string, context: Context)
      modifies this`runs
      ensures Now() == old(Now()).BeginNamed(id, session, objective, context)
      ensures runs == if id in old(runs) then old(runs)
                      else old(runs)[id := Run(session, objective, Ready, context, false)]
    {
      if id !in runs {
        runs := runs[id := Run(session, objective, Ready, context, false)];
      }
    }

    method Begin(session: string, objective: string, context: Context) returns (id: string)
      modifies this
      ensures Now() == old(Now()).Begin(session, objective, context) && id == "ex:" + Decimal(old(counter) + 1)
    {
      counter := counter + 1;
      id := MintedId(counter);
      BeginNamed(id, session, objective, context);
    }

    method Transition(id: string, to: State) returns (ok: bool)
      modifies this`runs
      ensures (Now(), ok) == old(Now()).Transition(id, to)
      ensures ok <==> id in old(runs) && KernelMay(old(runs)[id].phase, to)
                      && (old(runs)[id].phase.WaitingApproval? && old(runs)[id].pendingApproval ==> to.WaitingApproval?)
      ensures runs == if ok then old(runs)[id := old(runs)[id].(phase := to)] else old(runs)
    {
      if id !in runs || !KernelMay(runs[id].phase, to) {
        return false;
      }
      if runs[id].phase.WaitingApproval? && !to.WaitingApproval? && runs[id].pendingApproval {
        return false;
      }
      runs := runs[id := runs[id].(phase := to)];
      ok := true;
    }
  }
}
