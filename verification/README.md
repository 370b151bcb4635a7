# EveryAIOS shell: a verified model of its durable spine

This project models the part of the EveryAIOS desktop shell (`src-tauri/src`) that must not lose,
mix up or repeat work, together with the parsers whose output it trusts, and proves what the code
promises about them. `dafny verify dfyconfig.toml` checks everything.

## What is modelled

* **The Work/Run/Binding spine.** One application Session owns one Work, the Work has agent
  bindings and a pointer to its current Run. Two owners keep this: the journal-backed
  `WorkGateway` and the in-memory `ExecutionKernel`. Three callers use them: the ACP turn
  (`AcpAdmission`, `AcpBinding`, `AcpTurn`, `AcpCompose`, `AcpPrepare`), the end-of-turn transitions
  (`AcpTransition`) and the scheduled dispatch (`Dispatch`, `DispatchAdmission`, `Convergence`,
  `SchedulerModel`, `Firing`).
  `SpineRuns` and `SpineAgreement` prove facts about whole runs that mix all of them, `SpineWitness` drives
  fresh owners into the dead ends; `Recovery` proves what reopening the journal gives back,
  `KernelRecovery` what rebuilding the kernel from it does; `Identifiers` says when derived ids tell owners apart.
* **Permission tickets** (`GuardModel`, `PermissionProtocol`): policy verdicts, human decisions, spends
  and answers, interleaved with everything else that uses the guard.
* **Claiming an ACP handle** (`HandleClaim`): prompts of several Sessions interleaved wherever the code
  releases a lock.
* **MCP servers** (`McpLifecycle`, `McpRuns`; `McpInterleaved` splits the commands at their locks) and
  **two-phase remote calls** (`McpRemote`).
* **Parsers and small cores**: `CivilDate`, `ChunkedBody`, `OAuthCallback`, `WorktreeList`, `UndoStack`,
  `Scrub`, `Streaming`.

Code that changes things step by step is modelled by classes and methods with loops. Beside each such
class stands a datatype whose functions say what one call does to the whole state; every method's
postcondition equates the new state with that function of the old one, and the lemmas are about the
functions. Where a method has no such function (`PrepareAcpTurn`, `ResolveBinding`, `FireDueChecked`)
its postcondition states the property itself.

## How failure is modelled

* Journal, vault and registry writes fail as a script says: `disk(n)` tells whether the n-th write
  succeeds. Theorems quantify over all scripts; "no write failed" is `NoWriteFailed`. In the same way
  `link(n)` is the object a link written by the n-th write describes its Run with, whatever its caller
  passed and whatever the gateway added from its records.
* A crash between two calls of a dispatch is an attempt that stops after any number of steps with the
  kernel intact. A crash of the process, which also loses the kernel, is in `Recovery` and `KernelRecovery`.
* Other threads appear as arbitrary steps between two locked sections. Cancel flags, lock outcomes,
  clocks, policy verdicts, spawn and handshake results are arbitrary inputs of each step.
* Hashes are injective. JSON contexts are the fields the callers look at, or unreadable.

## Assumptions

* `Sound` (in `AcpAdmission`) is the standing invariant of the two owners, required by the ACP methods,
  true of empty owners and kept by every call of the model (`SpineRuns.InvInitially`,
  `SpineRuns.SpineNextKeepsInv`). It says that no id the kernel has still to mint is in use, that two Works
  never share a current Run, and that a binding is filed under its id and belongs to its Work's Session.
* A Work may hold several bindings of one agent: `work/binding_create` registers any binding
  (`crates/everyaios-core/src/work_gateway.rs:4174-4182`). Bindings are kept in a hash map, so which of them a turn
  finds is arbitrary; a turn is judged by the one it found, the ghost result `pick` of `PrepareAcpTurn`.
* Only turns, dispatches, end-of-turn transitions and the two binding calls of the wire act on the spine
  in `SpineRuns`; Runs that the chat runtime opens and links for itself are not among its steps.
* Pending approvals and uncertain effects of the gateway, and the kernel's pending approval, are changed
  by calls outside the model and may be anything at any time (`GatesChanged`).
* The firing pass gives a reason whenever it marks an occurrence uncertain, so the check for a blank
  reason is not modelled.

## What the code does not do although its text says so

Each of these is a theorem; the code was followed.

1. **A finished Session cannot go on.** The comment at `src-tauri/src/acp_cmds.rs:2748-2752` says that without an
   active Run a new one is started. It is started in the kernel, but `bind_execution`
   (`crates/everyaios-core/src/work_gateway.rs:3214-3227`) refuses to replace a final Run, so after the
   first completed, failed or cancelled turn every later turn of that Session fails (`ClosedForever`;
   `SecondTurnFails` gets there). The full admission condition is `Admissible`.
2. **The two lifecycle tables differ**, and `transition_acp_run` moves the gateway before it asks the kernel.
   `PartsIsTableDifference` is the exact table of the moves that part the two, `HandoffAgreement` the exact
   condition. Two prompts of one Session and agent that share a Run get there (`DifferingMove`).
3. **A contested resumption** (the kernel may restart the Run, the gateway may not record it) fails the
   Run in the kernel and leaves the Work as it was; `TurnAgreement` says agreement is lost exactly then
   (`ContestedResumption` gets there).
4. **Refusals of the current Run do not park the binding** the same call activated
   (`src-tauri/src/acp_cmds.rs:2755-2781`); stated in `BindingAfterFailure`.
5. **Rows that can never be read back.** A provenance stamp and a link are journaled before they are checked:
   a refused stamp, a link that contradicts what earlier links said of its Run, and a final state as a Run's
   first row leave a journal that cannot be opened again. These three are all: `Reopens` is an if and only if.
   The next dispatch takes a refused stamp for granted (`RefusedStampPassesNextTime`).
6. **Rows the kernel does not accept.** A process crash between a link and its first recorded state leaves a
   journal the kernel refuses to recover from (`CrashWindow`). So do, for good, the moves that the gateway
   records and the recovery finds illegal: a wait that becomes another wait or recoverable, a checkpointed Run
   that is paused or becomes recoverable, a paused Run that fails or becomes recoverable
   (`StrandsIsTableDifference`). `RecoversExactly` is the exact condition over a gateway's whole life.
   `Verifying` comes back as `Running` (`RestartPhases`).
7. **Canonical binding ids collide** for agents whose ids hold colons (`CanonicalBindingIdCollides`);
   `CanonicalBindingIdMeets` says exactly when. The ids the scheduler issues never do (`OccurrencesApart`).
8. **An attach ticket** does not tell no arguments from one empty argument (`TicketCovers`).
9. **A stopped MCP server can come back.** A stop whose registry write fails is forgotten by a restart
   (`LostStop`). A start that was allowed before the stop still brings its child up: a tool call leaves a
   stopped row with a live child, a refresh takes the stop back (`StartOutlivesStop`). A write that copied
   the registry before the stop replaces the file after it (`OlderCopyLosesStop`). These are all:
   `ReturnsExactly` and `StopHoldsExactly` are if-and-only-ifs over every interleaving.
10. **Two sessions editing one file**: undoing both leaves the first edit behind (`TwoSessionsOneFile`);
    `UndoKeepsExactly` is the exact condition.
11. **A second `?` in the callback's query** hides what follows it (`SecondQuestionMarkCuts`), and `%+5`
    decodes like `%05` (`SignIsDecoded`); `StrictUnlessSigned` says exactly when decoding is not
    percent-decoding.
12. **Chunk extensions that are not UTF-8** make a chunk-size line unreadable although RFC 9112 allows obs-text there
    (`SizeLine`).
13. **A tool name that does not come with the first fragment** of its index reaches the aggregate but not the
    stream (`NameLost`); `NameAgrees` says exactly when the two names are the same.
14. **A worktree path ending in a carriage return**, or a branch that itself begins with `refs/heads/`, is read
    back shortened (`ReadExactly`).
15. **A Session cannot change its agent.** The gateway lets a Session park one agent's binding and activate
    another's (`crates/everyaios-core/src/work_gateway.rs:3966-3975`), but a turn of another agent is refused
    while the Work's current Run names the first one, and that Run is only ever replaced by one of the same
    agent and binding (`SessionSticks`).

## Model

| member | source | states |
|---|---|---|
| WorkGatewayModel.WorkGateway.Append | crates/everyaios-core/src/work_gateway.rs:4626-4690 | a refused or failed journal write changes nothing but the count of writes tried |
| WorkGatewayModel.WorkGateway.MayMove | crates/everyaios-core/src/work_gateway.rs:1817-1854 | the table, held back by an unresolved approval or an unreconciled effect |
| WorkGatewayModel.WorkGateway.CreateWork | crates/everyaios-core/src/work_gateway.rs:2264-2326 | a Work exists after success with the stated owner; a failed write withdraws it; an existing one is only checked |
| WorkGatewayModel.WorkGateway.StampProvenance | crates/everyaios-core/src/work_gateway.rs:1724-1803 | the row is written before the patch is checked, so a refused stamp keeps its row |
| WorkGatewayModel.WorkGateway.BindExecution | crates/everyaios-core/src/work_gateway.rs:3197-3333 | a Work with a final current Run is never pointed at another one; a first link makes the Run Ready; a link whose fields contradict earlier ones is refused although its row is written and the Work points at the Run |
| WorkGatewayModel.WorkGateway.Describe | crates/everyaios-core/src/work_gateway.rs:1752-1775 | the fields of a link are merged one by one, up to the first that contradicts what is known |
| WorkGatewayModel.MergeExactly | crates/everyaios-core/src/work_gateway.rs:1752-1775 | a link is refused for its fields exactly if one is known with another value; otherwise what is known stays and all its fields are added |
| WorkGatewayModel.WorkGateway.RecordTransition | crates/everyaios-core/src/work_gateway.rs:5212-5226 | only the current Run moves, only if both the move and its journal form are legal |
| WorkGatewayModel.WorkGateway.CreateBinding | crates/everyaios-core/src/work_gateway.rs:3938-3964 | a binding is created parked, for a known Work of its Session, under a free id |
| WorkGatewayModel.WorkGateway.MoveBinding | crates/everyaios-core/src/work_gateway.rs:3976-4030 | no second active binding in a Session, no way back from dead |
| ExecutionKernelModel.ExecutionKernel.Begin | crates/everyaios-core/src/execution.rs:900-922 | a Ready Run under the next minted id |
| ExecutionKernelModel.ExecutionKernel.BeginNamed | crates/everyaios-core/src/execution.rs:925-952 | an existing Run of that id is left alone |
| ExecutionKernelModel.ExecutionKernel.Transition | crates/everyaios-core/src/execution.rs:1048-1067 | the table, held back by a pending approval |
| ExecutionKernelModel.BeginIsFresh | crates/everyaios-core/src/execution.rs:900-922 | a minted id is never one that exists |
| Lifecycle.ResumableExactly | src-tauri/src/acp_cmds.rs:2784-2794 | a turn continues exactly the Runs that run and those the kernel's table lets run |
| Lifecycle.KernelWithinGateway | crates/everyaios-core/src/execution.rs:146-200 | every move of the kernel is one of the gateway, and which moves are the gateway's alone |
| Lifecycle.GatewayEnters | crates/everyaios-types/src/lib.rs:357-410 | for each state, from which states the gateway lets a Run enter it |
| AcpBinding.ResolveBinding | src-tauri/src/acp_cmds.rs:2632-2746 | finds a binding of the agent (any of them), or creates it, and re-activates it; succeeds exactly when that binding is usable, ends Active with the caller's provider session, and touches no other; a failure says whether another provider session holds it, leaves an existing binding alone and a new one parked |
| AcpPrepare.CheckRun | src-tauri/src/acp_cmds.rs:2755-2783 | passes exactly the current Runs that exist and belong to this Session, agent and binding, and names the first thing that does not fit |
| AcpPrepare.ParkIfActivated | src-tauri/src/acp_cmds.rs:2861-2863 | only a binding this call activated is parked, and a failed parking is dropped |
| AcpPrepare.ResumeRun | src-tauri/src/acp_cmds.rs:2795-2816 | a resumed Run is running for both owners, or nothing runs that did not and the binding is parked again |
| AcpPrepare.StartRun | src-tauri/src/acp_cmds.rs:2820-2884 | a new Run is the Work's current, running one, or is failed and the binding parked again |
| AcpPrepare.OpenRun | src-tauri/src/acp_cmds.rs:2753-2884 | success exactly when the current Run is owned and usable; the current Run is continued exactly if it runs or may run again, and a new one has this Session, objective, agent and binding; no other Session's Run, Work or binding changes |
| AcpPrepare.PrepareAcpTurn | src-tauri/src/acp_cmds.rs:2579-2894 | success gives Work id = Session id, an Active binding with the provider session and a Running current Run of this Session, agent and binding; it happens exactly when admissible with the binding it found; failure starts nothing, compensates, and stays retryable, and without a failed write its error is the first check that does not hold; the current Run is continued exactly if it runs or the kernel may run it again; a new Work and a new Run are the Session's own, of this objective; only this Session changes, and no second binding is made for an agent |
| AcpCompose.Through | src-tauri/src/acp_cmds.rs:2579-2894 | the three steps compose to the whole promise of a turn |
| AcpCompose.RefusedAtWork | src-tauri/src/acp_cmds.rs:2619-2630 | a refused Work changes nothing and is refused only for a foreign owner or a failed write |
| AcpCompose.RefusedAtBinding | src-tauri/src/acp_cmds.rs:2632-2746 | a refused binding leaves the current Run and the owners' agreement alone |
| AcpTurn.ResumeUnrecorded | src-tauri/src/acp_cmds.rs:2804-2813 | a restart the gateway does not record ends Failed in the kernel, parks the binding and loses agreement |
| AcpTurn.RunHalfway | src-tauri/src/acp_cmds.rs:2873-2883 | a linked Run whose start was not recorded is failed and can be replaced by a retry |
| AcpTransition.TransitionAcpRun | src-tauri/src/acp_cmds.rs:2896-2928 | gateway first, kernel only after the gateway recorded the move |
| AcpTransition.PartsIsTableDifference | src-tauri/src/acp_cmds.rs:2896-2928 | the explicit list of moves after which the owners differ is the difference of the two tables |
| AcpTransition.HandoffAgreement | src-tauri/src/acp_cmds.rs:2896-2928 | agreement survives a transition exactly outside that list and when only the gateway's approvals count |
| AcpTransition.EndTurn | src-tauri/src/acp_cmds.rs:3418-3450 | the exact end state of both owners, whatever writes fail; a prompt's Run is failed exactly if the prompt failed, cancelled exactly if it was cancelled, completed exactly if it stopped with nothing pending, and waits exactly if tickets are pending, which alone leaves the Work unfinished |
| Identifiers.CanonicalBindingIdInjective | src-tauri/src/acp_cmds.rs:2547-2549 | for agents without a colon the id names one Session and one agent |
| Identifiers.CanonicalBindingIdMeets | src-tauri/src/acp_cmds.rs:2547-2549 | over all agents, when two ids are equal: one Session and agent, or one Session's id runs into the other's |
| Identifiers.CanonicalBindingIdCollides | src-tauri/src/acp_cmds.rs:2547-2549 | with colons two Sessions and agents can share an id |
| Identifiers.OccurrencesApart | crates/everyaios-core/src/scheduler_service.rs:2616-2623 | occurrences with ids as the scheduler issues them share no Work and no Run, and a Session only within a generation |
| Identifiers.SessionIdsMeet | src-tauri/src/scheduler_fire.rs:48-54 | over all names, when two automation Sessions have one id |
| Identifiers.ApartExactly | src-tauri/src/scheduler_fire.rs:48-62 | over all names, when two occurrences share neither Work nor Run nor a foreign Session |
| SpineRuns.SpineNextKeepsInv | src-tauri/src/acp_cmds.rs:2579-2928 | every call of the spine keeps the owners sound, loses nothing durable and never re-opens a finished Work |
| SpineRuns.Isolation | src-tauri/src/acp_cmds.rs:2543-2549 | any two successful turns of a run, whatever bindings others register: one Work, and one binding, exactly for one Session, then of one agent too; never one Run for two Sessions |
| SpineRuns.SessionSticks | src-tauri/src/acp_cmds.rs:2755-2781 | a Session's later turns only succeed for the agent and binding of its first |
| SpineRuns.AloneAlong | crates/everyaios-core/src/work_gateway.rs:4174-4182 | an agent has at most one binding in a Work until somebody other than a turn registers another |
| SpineRuns.ClosedForever | crates/everyaios-core/src/work_gateway.rs:3214-3227 | once the current Run is final no later turn of the Session succeeds |
| SpineWitness.SecondTurnFails | crates/everyaios-core/src/work_gateway.rs:3214-3227 | on fresh owners: a turn, its end, and a second turn that is refused |
| SpineWitness.DifferingMove | src-tauri/src/acp_cmds.rs:3418-3450 | on fresh owners: two turns on one Run, one verifying when the other is cancelled, after which the owners disagree and neither end succeeds |
| SpineWitness.ContestedResumption | src-tauri/src/acp_cmds.rs:2804-2813 | on fresh owners: a turn whose Run becomes recoverable with an uncertain effect, and a second turn that parts the owners |
| SpineAgreement.TurnAgrees | src-tauri/src/acp_cmds.rs:2804-2813 | a turn keeps all Works in agreement exactly unless it is a contested resumption |
| SpineAgreement.TransitionAgrees | src-tauri/src/acp_cmds.rs:2896-2928 | a transition keeps all Works in agreement exactly outside the differing moves |
| SpineAgreement.DispatchAgrees | src-tauri/src/scheduler_fire.rs:353-368 | a dispatch that goes through leaves gateway and kernel in agreement on every Work |
| SpineAgreement.AgreementAlong | src-tauri/src/scheduler_fire.rs:405-422 | along any run of such calls the Work state is the Work state of its current Run's phase |
| SpineAgreement.ApprovedTurnContinues | src-tauri/src/acp_cmds.rs:3442-3449 | a turn that stopped with tickets pending is not the end: once they are decided, the next turn with that binding whose writes succeed answers with the same Work, binding and Run |
| SpineAgreement.RetrySucceeds | src-tauri/src/acp_cmds.rs:2795-2884 | while the agent has one binding in the Work: after any number of failed turns the next one whose writes succeed answers with a Running Run |
| Dispatch.DispatchOccurrence | src-tauri/src/scheduler_fire.rs:218-403 | the dispatch is its six absent-only steps in order, stopped at the first refusal; the receipt names the occurrence's own Work and Run |
| Dispatch.EnsureAutomationSession | src-tauri/src/scheduler_fire.rs:78-118 | a stored Session is checked, a missing one stored |
| Dispatch.ResolveWork | src-tauri/src/scheduler_fire.rs:245-279 | an existing Work must have the right owner, kind and objective |
| Dispatch.ResolveProvenance | src-tauri/src/scheduler_fire.rs:281-291 | the row is appended only if the journal holds no such row |
| Dispatch.ResolveRun | src-tauri/src/scheduler_fire.rs:315-351 | an existing Run is checked and reported as it is, a missing one opened |
| Dispatch.ResolveLink | src-tauri/src/scheduler_fire.rs:353-360 | a Work is linked once, to its own Run |
| Dispatch.ResolveState | src-tauri/src/scheduler_fire.rs:361-368 | the Work state is recorded only where it differs from the Run's phase |
| DispatchAdmission.AdmittedExactly | src-tauri/src/scheduler_fire.rs:218-403 | without a failed write an occurrence is admitted exactly if everything found beforehand is its own (compiled spec, Session, Work, stamp, Run, link), no new link contradicts an earlier one, and the state may be recorded |
| Convergence.StepDone | src-tauri/src/scheduler_fire.rs:218-403 | a finished step repeated changes nothing at all |
| Convergence.AttemptAt | src-tauri/src/scheduler_fire.rs:218-403 | an attempt picks up where earlier ones stopped and stops short only when a write fails |
| Convergence.AttemptApart | src-tauri/src/scheduler_fire.rs:218-403 | attempts for other occurrences show nothing here |
| Convergence.Converges | src-tauri/src/scheduler_fire.rs:218-403 | after any interrupted dispatches and moves a complete one is admitted with one Work, one provenance row, one Run and one link, and another changes nothing |
| Convergence.ConvergesExactly | src-tauri/src/scheduler_fire.rs:218-403 | without moves the result is row for row that of one uninterrupted dispatch, what the link's row says of the Run aside |
| Convergence.NeverMovesBack | src-tauri/src/scheduler_fire.rs:315-351 | a dispatch never touches an existing Run |
| Convergence.RefusedStampPassesNextTime | src-tauri/src/scheduler_fire.rs:281-291 | a stamp is accepted exactly if complete and not contradicting; a refused one passes the next time |
| SchedulerModel.SchedulerService.MarkFired | crates/everyaios-core/src/scheduler_service.rs:1891-1957 | only with the occurrence's own receipt, never after a cancellation, which is reported as such; a settled row never changes; a failed save takes it back |
| SchedulerModel.SchedulerService.MarkUncertain | crates/everyaios-core/src/scheduler_service.rs:1979-2007 | a settled row is not made uncertain; a failed save takes it back |
| SchedulerModel.SchedulerService.PendingOccurrences | crates/everyaios-core/src/scheduler_service.rs:1431-1437 | exactly the pending rows |
| SchedulerModel.SchedulerService.AdmitDue | crates/everyaios-core/src/scheduler_service.rs:1466-1500 | due occurrences become pending rows at the end, once each; known rows stay; a failed save takes all of it back |
| Firing.AdmittedIsLinked | src-tauri/src/scheduler_fire.rs:353-403 | an admitted occurrence's Work points at its own Run, so its receipt is true |
| Firing.AttemptKeepsLink | src-tauri/src/scheduler_fire.rs:353-360 | later dispatches never undo a link |
| Firing.HandleOccurrence | src-tauri/src/scheduler_fire.rs:456-523 | one occurrence is looked at again, dispatched at most once and settled; its job is reported exactly if it was fired; other rows are touched only by cancellations |
| Firing.GatheredKeeps | src-tauri/src/scheduler_fire.rs:435-452 | gathering adds pending occurrences that fell due and shows what others cancelled, nothing else |
| Firing.GatheredAll | src-tauri/src/scheduler_fire.rs:435-452 | gathering is stopped only by a refused admission, a lock or a save, and otherwise leaves out nothing that fell due |
| Firing.Collect | src-tauri/src/scheduler_fire.rs:435-452 | what the pass starts from is a function of the service before it; then exactly the pending occurrences are collected, each once |
| Firing.FireDueChecked | src-tauri/src/scheduler_fire.rs:435-529 | exactly the pending occurrences are handled, whatever happens to each; the three owners are left as by dispatching some of them one after the other, none twice; each fired one has its own true receipt, and the jobs returned are those of the fired ones; with locks and saves working everything not cancelled first is dispatched, fired exactly if admitted and its job is known, and uncertain otherwise; a pass without error fired all that nobody cancelled, one with an error left one unfired; whatever others cancel before it is fired ends cancelled, and nothing else does |
| Firing.CancellationIsFinal | crates/everyaios-core/src/scheduler_service.rs:1910-1912 | an occurrence that a lock of the pass shows cancelled while it is pending or uncertain ends cancelled and is not reported as fired; what ends cancelled was cancelled by others |
| Firing.NoneLeftPending | src-tauri/src/scheduler_fire.rs:435-529 | if every lock and save of a pass succeeds, no occurrence that was pending before it or fell due is pending after it |
| Recovery.ApplyRestorable | crates/everyaios-core/src/work_gateway.rs:1348-1803 | a call leaves a journal that replays to the live state exactly unless it is one of the three poisoning calls |
| Recovery.Reopens | crates/everyaios-core/src/work_gateway.rs:1278-1340 | over a whole life: the journal opens, also past the final check of the graph, exactly if no call poisoned it, and then mirrors Works, bindings, current Runs, Run fields and states |
| Recovery.RestorableOpens | crates/everyaios-core/src/work_gateway.rs:2078-2151 | what mirrors a live gateway passes the check of the whole graph: owners, pointers, one active binding per Session |
| Recovery.OpensExactly | crates/everyaios-core/src/work_gateway.rs:2078-2151 | any journal, whoever wrote it: beside rows that make no sense only a binding of a foreign Session, an active one its Work does not point at, or two active ones of one Session keep it from opening |
| Recovery.RowTakenExactly | crates/everyaios-core/src/work_gateway.rs:1348-1803 | which row a replay takes after any rows, whoever wrote them |
| Recovery.PoisonedStays | crates/everyaios-core/src/work_gateway.rs:1324-1334 | a poisoned journal cannot be replayed, then or ever |
| Recovery.MoveRestorable | crates/everyaios-core/src/work_gateway.rs:3976-4030 | binding moves replay, a Session never has two active bindings, and a Work's pointer names the active one |
| KernelRecovery.StrandsIsTableDifference | crates/everyaios-core/src/execution.rs:2068-2087 | the explicit list of moves the gateway records and the recovery refuses is the difference of the two tables, seen through the journal |
| KernelRecovery.RowsBeyondGateway | crates/everyaios-core/src/execution.rs:2068-2087 | the one move between rows that the recovery takes and the gateway never makes |
| KernelRecovery.LivesAlong | crates/everyaios-core/src/execution.rs:593-639 | over a whole life: every Run's rows are legal for the recovery exactly if no call recorded such a move |
| KernelRecovery.LifeOfCalls | crates/everyaios-core/src/execution.rs:583-639 | a Run has lifecycle rows exactly if some call recorded it, and a queued or started one exactly if some call recorded such a state |
| KernelRecovery.RecoversExactly | crates/everyaios-core/src/execution.rs:379-460 | from an empty gateway, after any calls: the kernel is rebuilt exactly if the journal opens, no move stranded a Run, every linked Run was recorded by some call (and, if finished, once in a state journaled as queued or started), no Run is of two Works, every Work shows its current Run and every active binding has its provider session |
| KernelRecovery.RestartPhases | crates/everyaios-core/src/execution.rs:479-815 | every Run comes back in its old state, Verifying as Running |
| KernelRecovery.CrashWindow | crates/everyaios-core/src/execution.rs:738-740 | a stop between link and first recorded state cannot be recovered from; the next recorded non-final state closes the window |
| GuardModel.GuardService.Evaluate | crates/everyaios-core/src/guard_service.rs:357-560 | every unblocked verdict mints one single-use ticket for exactly these arguments |
| GuardModel.GuardService.UseTicket | crates/everyaios-guard/src/ticket.rs:243-274 | approval, validity, arguments and single use, in that order |
| GuardModel.GuardService.Decide | crates/everyaios-guard/src/ticket.rs:305-359 | a human decides a pending ticket once, with its nonce |
| GuardModel.UseExactly | crates/everyaios-guard/src/ticket.rs:243-274 | a spend succeeds exactly for an approved ticket in time, of these arguments, without emergency stop; what a failed one makes of the ticket, and that it spends nothing |
| GuardModel.EvaluateExactly | crates/everyaios-core/src/guard_service.rs:357-560 | a refusal mints nothing, a question a ticket that cannot be spent yet, a grant one that can |
| GuardModel.AskedTicketLives | crates/everyaios-guard/src/ticket.rs:243-359 | a ticket asked of a human can be spent exactly after an approval with its own nonce, within a minute, for its arguments, once |
| GuardModel.RevokedAndExtended | crates/everyaios-guard/src/ticket.rs:276-404 | a revoked ticket is never spent or decided; only a pending one gets more time, and then answers to its new nonce only |
| PermissionProtocol.Begin | src-tauri/src/acp_cmds.rs:3212-3277 | a cancel or a lost lock denies before anything is minted; an allow comes exactly from a grant without cancel or emergency stop where allow-once is offered, a wait exactly from a question, and the spends change exactly by a grant's |
| PermissionProtocol.Conclude | src-tauri/src/acp_cmds.rs:3294-3310 | an allow exactly if approved, spendable for these arguments, not cancelled, and allow-once offered; an offered reject exactly otherwise under the lock; one spend exactly if approved and spendable |
| PermissionProtocol.TakeKeeps | src-tauri/src/acp_cmds.rs:3204-3333 | every step of every thread keeps each held ticket bound to its own request |
| PermissionProtocol.AllowsAreBacked | src-tauri/src/acp_cmds.rs:3204-3333 | each allow has its own ticket, minted for the same agent, Session and arguments, cleared by policy or a human, spent exactly once, by that request |
| PermissionProtocol.DecisionIsAnswered | src-tauri/src/acp_cmds.rs:3281-3333 | after any run: a waiting request whose ticket was decided, undisturbed from there, is allowed exactly if it was approved, is in time, not stopped, and allow-once is offered |
| PermissionProtocol.FirstSectionExactly | src-tauri/src/acp_cmds.rs:3212-3277 | in every state: no lock or an early cancel leaves the guard alone; when the callback allows, waits and spends otherwise |
| PermissionProtocol.WaitExactly | src-tauri/src/acp_cmds.rs:3278-3310 | in every state: what ends a wait and with which answer; no allow after a cancel, a rejection, a lost channel or without the lock |
| PermissionProtocol.ElsewhereExactly | crates/everyaios-guard/src/ticket.rs:243-359 | what spends, decisions, revocations, the clock and the emergency stop of others do to the guard |
| PermissionProtocol.RejectedNeverSpent | src-tauri/src/acp_cmds.rs:3281-3310 | a ticket a human rejected is never spent |
| HandleClaim.HandleTable.Claim | src-tauri/src/acp_cmds.rs:3142-3167 | succeeds exactly where there is no owner or the same one, and sets owner and Run of that handle only |
| HandleClaim.MakeKeeps | src-tauri/src/acp_cmds.rs:2995-3186 | every step of every prompt, launch and shut-down keeps claims and mutual exclusion |
| HandleClaim.OwnerIsWriteOnce | src-tauri/src/acp_cmds.rs:3142-3167 | an owner once set is never another, as long as the handle lives |
| HandleClaim.ProviderOnlyAfterClaim | src-tauri/src/acp_cmds.rs:2995-3210 | a prompt at the provider has its handle claimed for its own Session, Work and binding, alone |
| HandleClaim.OwnerComesBack | src-tauri/src/acp_cmds.rs:2995-3210 | in every reachable state the owner of a handle reaches the provider again once nobody is inside |
| HandleClaim.OthersAreRefused | src-tauri/src/acp_cmds.rs:2995-3060 | a prompt of another Session is refused as such and changes no handle |
| HandleClaim.EntersExactly | src-tauri/src/acp_cmds.rs:2961-3075 | how a prompt fares at the door, check by check, for every handle table and input |
| HandleClaim.LaterChecksExactly | src-tauri/src/acp_cmds.rs:3076-3210 | the owner is looked at again behind the mutex, and the handle before the provider call |
| McpLifecycle.McpRegistry.BringUp | src-tauri/src/mcp_cmds.rs:753-821 | a child is started only as the row allows, with the row's command |
| McpLifecycle.McpRegistry.Refresh | src-tauri/src/mcp_cmds.rs:661-694 | exactly the rows without a child that allow a lazy start are tried, in any order |
| McpLifecycle.McpRegistry.Stop | src-tauri/src/mcp_cmds.rs:698-723 | the child goes, the row stays and is stopped |
| McpLifecycle.McpRegistry.Detach | src-tauri/src/mcp_cmds.rs:630-653 | child and row go |
| McpLifecycle.McpRegistry.LazyCall | src-tauri/src/mcp_cmds.rs:400-432 | a first call starts only what may be started lazily |
| McpLifecycle.McpRegistry.Restart | src-tauri/src/mcp_cmds.rs:194-213 | no child survives, rows come from the file |
| McpRuns.TicketCovers | src-tauri/src/mcp_cmds.rs:324 | the attach fingerprint tells name, command and separator-free arguments apart, except none from one empty |
| McpRuns.SanitizeExactly | crates/everyaios-mcp/src/attach.rs:673-690 | a name comes through trimmed, exactly if it then has 1 to 64 letters, digits, `-`, `_` or `.` |
| McpRuns.AttachedExactly | src-tauri/src/mcp_cmds.rs:467-558 | an attach is recorded exactly if its ticket could be spent for it and its child answered; never with a ticket of an earlier life of the app |
| McpRuns.PerformKeeps | src-tauri/src/mcp_cmds.rs:466-821 | every command keeps live children among unstopped rows of committed attaches, each with its own spent ticket |
| McpRuns.ChildrenAreApproved | src-tauri/src/mcp_cmds.rs:467-558 | every live child runs the name, command and arguments of a committed attach whose ticket was minted for it, granted by policy or approved by a human, and spent exactly once, for this attach only |
| McpRuns.StoppedStaysStopped | src-tauri/src/mcp_cmds.rs:110-141 | a saved stop lasts over refreshes, calls, edits and restarts until an explicit start or new attach |
| McpRuns.LostStop | src-tauri/src/mcp_cmds.rs:179-187 | a stop survives restart and refresh exactly if its write succeeded, for a row the file lets start |
| McpRuns.AutoStartOffStaysOff | src-tauri/src/mcp_cmds.rs:110-141 | a saved auto-start off keeps a server that is down from starting by itself, over refreshes, calls and restarts, until it is started, attached or set again |
| McpInterleaved.ReturnsExactly | src-tauri/src/mcp_cmds.rs:400-821 | over every interleaving of the locked sections without a new start or attach of a server, it can have a child exactly if it has one, a row or (over a restart) the file lets it start, or a command in flight was allowed to start it, will clear its stop or is about to write an older copy |
| McpInterleaved.StopHoldsExactly | src-tauri/src/mcp_cmds.rs:698-723 | once a stop has marked the row, the server has no child for the life of the app exactly if none was inserted meanwhile and no start of it is in flight |
| McpInterleaved.WrittenStopHoldsExactly | src-tauri/src/mcp_cmds.rs:179-187 | once a stop is written, this holds over restarts too exactly if besides no older copy with the row not stopped is about to be written |
| McpInterleaved.StartOutlivesStop | src-tauri/src/mcp_cmds.rs:400-432 | a stop within an allowed start, for every such start: the child lives, the row stays stopped after a tool call and is unstopped after a refresh or a user's start |
| McpInterleaved.OlderCopyLosesStop | src-tauri/src/mcp_cmds.rs:179-187 | a stop within another command's write: both writes succeed and the file has the row not stopped |
| McpInterleaved.AloneIsOneStep | src-tauri/src/mcp_cmds.rs:400-821 | a command whose sections nothing comes between ends, and does what its single step in the registry does |
| McpInterleaved.PruneAndRestart | src-tauri/src/mcp_cmds.rs:194-213 | pruning and a restart are the registry's single steps, and a restart ends every command and child |
| McpInterleaved.ChildrenWereAttached | src-tauri/src/mcp_cmds.rs:467-558 | over every interleaving a child runs the command and arguments of an attach for its name whose ticket was spent |
| McpRemote.RemoteCalls.Request | src-tauri/src/mcp_cmds.rs:1052-1123 | the exact call is stored under the ticket minted for it |
| McpRemote.RemoteCalls.Commit | src-tauri/src/mcp_cmds.rs:1129-1150 | the call comes from the store and only after its ticket was spent for it |
| McpRemote.HashCovers | src-tauri/src/mcp_cmds.rs:1052-1123 | the fingerprint tells store, tool name and parameters apart, except no name from the name `<unnamed>` |
| McpRemote.SendsExactly | src-tauri/src/mcp_cmds.rs:1052-1171 | a call is sent exactly by a commit that spent its ticket, or at once for other methods, while the server is reachable |
| McpRemote.ExecutedAsRequested | src-tauri/src/mcp_cmds.rs:1052-1171 | every executed tools/call is the one stored under its ticket, which was minted for it, granted or approved, and spent exactly once, by the commit that sent it; no other call was sent under it |
| CivilDate.CivilIsInverse | src-tauri/src/skills_cmds.rs:342-354 | every day number gives a valid date whose counted days are that number |
| CivilDate.CivilIsGregorian | src-tauri/src/skills_cmds.rs:341-354 | it is the proleptic Gregorian calendar: epoch, validity, successor, inverse both ways |
| ChunkedBody.DecodeWith | src-tauri/src/runtime_cmds.rs:227-252 | the loop ends and computes the decoding function |
| ChunkedBody.DecodesEncoded | src-tauri/src/runtime_cmds.rs:227-252 | every chunked body within the limit decodes to its payload, whatever its extensions and tail |
| ChunkedBody.DecodedWasEncoded | src-tauri/src/runtime_cmds.rs:227-252 | every decoded result is the payload of well-formed chunks and at most 1 MiB |
| ChunkedBody.DecodeIsExact | src-tauri/src/runtime_cmds.rs:26 | the decoder accepts exactly the chunked bodies of at most 1 MiB |
| ChunkedBody.SizeLine | src-tauri/src/runtime_cmds.rs:235-237 | a size line announces its hexadecimal size exactly if its extension is UTF-8 |
| ChunkedBody.Utf8Reads | src-tauri/src/runtime_cmds.rs:235 | every text is read back from its UTF-8 form |
| ChunkedBody.Utf8Only | src-tauri/src/runtime_cmds.rs:235 | only UTF-8 forms are read |
| ChunkedBody.HexDigitExactly | src-tauri/src/runtime_cmds.rs:237 | the hexadecimal digits in both cases and nothing else |
| ChunkedBody.PlusIsReadOver | src-tauri/src/runtime_cmds.rs:237 | one plus sign before the digits is read over, alone it is no size |
| ChunkedBody.HexRoundTrip | src-tauri/src/runtime_cmds.rs:237 | every size has a size line |
| OAuthCallback.UrlDecode | src-tauri/src/oauth_cmds.rs:163-181 | the loop computes percent-decoding |
| OAuthCallback.StrictUnlessSigned | src-tauri/src/oauth_cmds.rs:163-181 | decoding is percent-decoding with two hexadecimal digits exactly on texts where it meets no signed escape |
| OAuthCallback.HexNibbleExactly | src-tauri/src/oauth_cmds.rs:169-176 | the hexadecimal digits in both cases and nothing else |
| OAuthCallback.SignIsDecoded | src-tauri/src/oauth_cmds.rs:169-176 | a percent sign, a plus sign and a digit are decoded |
| OAuthCallback.DecodesText | src-tauri/src/oauth_cmds.rs:163-181 | decoding undoes every percent-encoding of every byte string |
| OAuthCallback.ParseCallback | src-tauri/src/oauth_cmds.rs:143-161 | code and state are the values of the last pairs with those keys |
| OAuthCallback.FirstLineEnds | src-tauri/src/oauth_cmds.rs:143-147 | the first line ends before a newline, or a carriage return and a newline |
| OAuthCallback.CallbackRoundTrip | src-tauri/src/oauth_cmds.rs:143-181 | any code and state, encoded any way, in any place among other parameters, come back exactly |
| OAuthCallback.SecondQuestionMarkCuts | src-tauri/src/oauth_cmds.rs:146 | nothing behind a second question mark is read |
| UndoStack.Workspace.UndoSession | src-tauri/src/control.rs:80-103 | the newest snapshot of the session, or of any for the empty one, is taken back; with none pending nothing changes |
| UndoStack.Workspace.RestorePath | src-tauri/src/fs_cmds.rs:480-498 | the newest snapshot of the path is taken back |
| UndoStack.UndoKeepsExactly | src-tauri/src/control.rs:80-103 | an undo keeps the way back to the original exactly unless it takes the oldest snapshot from under a differing newer one |
| UndoStack.UndoRestoresOriginals | src-tauri/src/control.rs:150-160 | with one session per path the oldest pending snapshot is the original, and a drained stack restores every file |
| UndoStack.TwoSessionsOneFile | src-tauri/src/control.rs:86-89 | with two sessions on a file undoing both can leave the first edit |
| Scrub.ScrubCommutesWithLookup | src-tauri/src/diagnostics_cmds.rs:92-108 | lookup and scrubbing commute along paths without secret keys; other paths lead nowhere |
| Scrub.SecretExactly | src-tauri/src/diagnostics_cmds.rs:76-88 | a key is dropped exactly if one of the listed words stands at its place in it, in any letter case |
| Scrub.ScrubCleans | src-tauri/src/diagnostics_cmds.rs:76-108 | no secret-shaped key at any depth, no string above the limit or 28 bytes |
| Scrub.ScrubIdempotent | src-tauri/src/diagnostics_cmds.rs:92-108 | scrubbing twice is scrubbing once for limits of at least 28 |
| Scrub.ByteLengthIsUtf8 | src-tauri/src/diagnostics_cmds.rs:103 | the length that decides is that of the UTF-8 form |
| Scrub.OnlyLengthIsTold | src-tauri/src/diagnostics_cmds.rs:103-105 | a short string is kept, of a long one nothing is told but its length |
| Scrub.AuditSummary | src-tauri/src/diagnostics_cmds.rs:113-133 | the newest readable events, newest first, with time and kind as they are and the payload scrubbed, and the count of all |
| Scrub.NewestAt | src-tauri/src/diagnostics_cmds.rs:119-124 | every readable line is counted and stands behind as many as follow it |
| Scrub.PreviewShows | src-tauri/src/diagnostics_cmds.rs:126-131 | time and kind are the event's, and along every path its payload is what scrubbing leaves |
| Scrub.PreviewIsClean | src-tauri/src/diagnostics_cmds.rs:113-133 | no secret-shaped key and no long string is left in a payload of the summary |
| Streaming.Relay | src-tauri/src/openai_cmds.rs:200-222 | content pieces concatenate to the content, fragments keep order, only new calls are announced, no empty piece |
| Streaming.Assemble | crates/everyaios-vault/src/broker.rs:1418-1441 | per index the last non-empty id and name and all arguments in order |
| Streaming.LastTexts | crates/everyaios-vault/src/broker.rs:1418-1441 | id and name of an index are its last non-empty ones |
| Streaming.ArgumentsAddUp | crates/everyaios-vault/src/broker.rs:1418-1441 | arguments concatenate over fragments and fragment lists |
| Streaming.FinishCalls | crates/everyaios-vault/src/broker.rs:1442-1471 | the calls in the order of their indices: nameless ones dropped, unreadable arguments kept as text unless the answer was cut off, and numbered |
| Streaming.FinishExactly | crates/everyaios-vault/src/broker.rs:1442-1471 | a call is dropped exactly if nameless or cut off within unreadable arguments; what becomes of its arguments otherwise |
| Streaming.FinishedExactly | crates/everyaios-vault/src/broker.rs:1442-1471 | a call is listed exactly if some index has it as its finished call |
| Streaming.CutCallsAreWhole | crates/everyaios-vault/src/broker.rs:1455-1467 | no call of a cut answer has unreadable arguments, and no two calls have one id |
| Streaming.RelayMatchesAggregate | src-tauri/src/openai_cmds.rs:187-258 | relayed arguments concatenate to the aggregate's per index; id and name come only with the first piece |
| Streaming.NameAgrees | src-tauri/src/openai_cmds.rs:208-219 | the streamed name is the first fragment's; it is the aggregate's exactly if no later fragment renames the call |
| Streaming.NameLost | src-tauri/src/openai_cmds.rs:208-219 | a name that comes with the second fragment is in the aggregate and not in the stream |
| WorktreeList.GitWorktreeList | src-tauri/src/git_cmds.rs:164-184 | the loop computes the reading of the lines |
| WorktreeList.WorktreeRoundTrip | src-tauri/src/git_cmds.rs:164-184 | all entries come back in order, the last one too, whatever other lines stand between |
| WorktreeList.ReadExactly | src-tauri/src/git_cmds.rs:168-176 | an entry comes back unchanged exactly if no field ends in a carriage return and its branch has no further prefix |

## Left out

- KernelRecovery.KernelRecovers: what the recovery reads from a Run's fields (its Session, objective and the provenance in its context), pending approvals and effects, and the cache checkpoint are not modelled; replay is modelled without the approval and effect rows and without the checkpoint number a checkpoint row adds to a Run's fields.
- Recovery.Graph: the checks of parent Works, pending approvals and effects, and of the Work's own copy of its active binding's id, are not modelled.
- CivilDate.CivilFromDays: unbounded integers, so the overflow of the 64-bit addition for day numbers near the end of the range is not modelled.
- ChunkedBody.DecodeWith: `end + 2` is an unbounded sum; with machine integers it needs a size that is not within two of the largest one.
- Streaming.FinishCalls: reading arguments as JSON is an input.
- Scrub.ScrubJson: object members are a list, of which the first with a key counts; numbers are text.
- SchedulerModel.SchedulerService.AdmitDue: which occurrences fall due, misfire policies and the job's next run are an input; the save after a skipped misfire is not modelled.
- Dispatch.DispatchOccurrence: `compile_work` and the readiness of the bound agent, which only adds a blocker text, are not modelled; the compiled spec is part of the occurrence.
- WorkGatewayModel.WorkGateway.BindExecution: how the fields of a link are put together (the caller's object, the Work's Session, objective and provenance, a binding) is an input; none is called `checkpoint`.
- SchedulerModel.SchedulerService.MarkFired: the job's last and next run, which are saved with the row, are not modelled.
- McpRuns.StoppedStaysStopped: each command is one step; what changes when commands interleave is stated in `McpInterleaved`.
- McpInterleaved.ReturnsExactly: a write of the registry file is one step, although two writers share its temporary file; a refresh is a sequence of single starts in any order.
- McpRuns.ChildrenAreApproved: each command is one step (`McpInterleaved` has their locked sections, with the spending of an attach ticket as an input). Tickets end with the app, so a deed names its ticket together with the number of restarts before it; the registry file the first start finds is empty.
- The Work owner check after `create_work_in_session` in `prepare_acp_turn` (`src-tauri/src/acp_cmds.rs:2624-2630`) and the two binding owner checks (`src-tauri/src/acp_cmds.rs:2651-2664`) can never fail, so they have no branch here.
- Cancellation of ACP targets (`validate_cancel_owner`, `cancel_acp_targets_for_session`): one reading settles them.
- The prompt itself, budget preflight, the stable-prefix guard, tool logs, usage records and the memory ledger.
- Lock poisoning in the ACP paths, other than as a step that does not happen.
- Delegated Works, provider process lifecycles, HTTP, Tauri commands and events.
- The tool-service half of a session undo (`revert_last`) and the audit record of every mutation.
- Readiness ladders, JSON projections, settings setters and catalog merging: they would only add easy members.
