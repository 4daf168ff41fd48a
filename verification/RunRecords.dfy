/** One run as the application keeps it: what is persisted, what this process only remembers, and
    what the outside has really been asked. Runs of other tasks do not touch these. */
module RunRecords {
  import opened Wrappers

  datatype RunStatus =
    | Queued | Dispatching | Running | WaitingInput | WaitingAuth | Paused | PendingReconcile
    | Succeeded | Failed | Cancelled

  datatype OpStatus = Intended | Dispatched | Unknown | Completed | OpFailed

  predicate Terminal(status: RunStatus) {
    status == Succeeded || status == Failed || status == Cancelled
  }

  /** A backend result. `rich` says that it carries native references or events, `unknownError` that
      its error code is REMOTE_STATE_UNKNOWN; native requests are given by their digests, and a
      report may omit the list of them. */
  datatype Report = Report(status: RunStatus, terminated: bool, unknownError: bool, rich: bool,
                           approvals: Option<seq<nat>>, needsApproval: bool)

  /** The digest of a request without native content is that of the task's own input. */
  const OWN_DIGEST: nat := 0

  function Listed(r: Report): seq<nat> {
    match r.approvals case Some(requests) => requests case None => []
  }

  function Requests(r: Report): seq<nat> {
    if Listed(r) != [] then Listed(r) else if r.needsApproval then [OWN_DIGEST] else []
  }

  datatype Retained = Retained(report: Report, failures: nat, readyAt: nat, approval: Option<nat>)

  /** The persisted record. `held` and `released` are the two slot marks, `stash` a report whose own
      transaction was lost, `attempts` the digests of requests whose forwarding was ever begun. */
  datatype Run = Run(op: Option<OpStatus>, status: RunStatus, terminated: bool, cancelRequested: bool,
                     held: Option<bool>, released: bool, stash: Option<Report>, stashApproval: Option<nat>,
                     attempts: set<nat>, pending: Option<nat>, current: bool)

  /** Where `_dispatch_committed` stands in this process. A synchronous call keeps the run it loaded. */
  datatype Stage = Idle | Marked | Committed | Calling(stale: Run)

  datatype Cell = Cell(run: Run, slot: bool, queued: bool, retained: Option<Retained>, worker: bool, stage: Stage,
                       forwarding: Option<nat>, epoch: nat, calls: nat, sent: multiset<nat>)

  const BACKOFF_CAP: nat := 8

  // ---------------------------------------------------------------- reports

  /** The generic unresolved report a worker sends when its action raised. */
  predicate IsFallback(r: Report) {
    r.status == PendingReconcile && !r.terminated && r.unknownError && !r.rich && Listed(r) == [] && !r.needsApproval
  }

  predicate IsProgress(r: Report) {
    (r.status == Dispatching || r.status == Running) && !r.terminated && Listed(r) == [] && !r.needsApproval
  }

  function Power2(n: nat): nat {
    if n == 0 then 1 else 2 * Power2(n - 1)
  }

  function BackoffGap(failures: nat): nat {
    if failures <= 1 then 1
    else if Power2(failures - 1) < BACKOFF_CAP then Power2(failures - 1) else BACKOFF_CAP
  }

  // ---------------------------------------------------------------- slots

  /** `_assign_slot`: terminal runs carry no mark at all. */
  function AssignSlot(run: Run, held: bool): Run {
    if Terminal(run.status) then run.(held := None, released := false)
    else run.(held := Some(held), released := !held)
  }

  predicate SlotHeld(run: Run) {
    if Terminal(run.status) then false
    else if run.held.Some? then run.held.value
    else if run.op == None || run.op == Some(Intended) then false
    else !run.released
  }

  function Project(c: Cell): Cell {
    c.(slot := SlotHeld(c.run))
  }

  // ---------------------------------------------------------------- remembering and preserving

  predicate Rich(c: Cell) {
    || (c.run.stash.Some? && !IsFallback(c.run.stash.value))
    || (c.retained.Some? && !IsFallback(c.retained.value.report))
  }

  /** `_remember_result` after a failed write. */
  function Remember(c: Cell, r: Report, approval: Option<nat>): Cell {
    if c.retained.Some? && IsFallback(r) && !IsFallback(c.retained.value.report) then c
    else
      var failures := (if c.retained.Some? then c.retained.value.failures else 0) + 1;
      var kept := if approval.Some? then approval else if c.retained.Some? then c.retained.value.approval else None;
      c.(retained := Some(Retained(r, failures, c.epoch + BackoffGap(failures), kept)))
  }

  function Unresolved(op: Option<OpStatus>): Option<OpStatus> {
    if op.Some? then Some(Unknown) else None
  }

  /** The preserving transaction: stash the report, give the slot back, wait for reconciliation. */
  function Preserved(run: Run, r: Report, approval: Option<nat>): Run {
    if Terminal(run.status) then run
    else
      var kept := if run.stash.Some? && IsFallback(r) && !IsFallback(run.stash.value) then run.stash else Some(r);
      AssignSlot(run, false).(stash := kept, stashApproval := if approval.Some? then approval else run.stashApproval,
                              status := PendingReconcile,
                              terminated := if run.status == PendingReconcile then run.terminated else false,
                              op := Unresolved(run.op))
  }

  /** `_preserve_failed_result`; the write may fail as well, the slot is given back in any case. */
  function Preserve(c: Cell, r: Report, approval: Option<nat>, fails: bool): Cell {
    var kept := Remember(c, r, approval);
    kept.(run := if fails then kept.run else Preserved(kept.run, r, approval), slot := false)
  }

  // ---------------------------------------------------------------- recording

  function OpAfter(status: RunStatus): OpStatus {
    if status == Failed then OpFailed
    else if Terminal(status) then Completed
    else if status == PendingReconcile then Unknown
    else Dispatched
  }

  function FirstFresh(requests: seq<nat>, attempts: set<nat>): Option<nat> {
    if requests == [] then None
    else if requests[0] !in attempts then Some(requests[0])
    else FirstFresh(requests[1..], attempts)
  }

  /** The open approval after a report: invalidated when its request is gone or the run is over, and
      replaced by the first request that was never forwarded. */
  function PendingAfter(run: Run, r: Report): Option<nat> {
    var live := run.pending.Some? && !Terminal(r.status)
                && !(run.pending.value != OWN_DIGEST && r.approvals.Some?
                     && (run.pending.value !in Requests(r) || run.pending.value in run.attempts));
    if live then run.pending else FirstFresh(Requests(r), run.attempts)
  }

  /** The recording transaction. */
  function Recorded(run: Run, r: Report): Run {
    var next := run.(stash := None, stashApproval := None, held := None, released := false,
                     status := r.status, terminated := r.terminated, pending := PendingAfter(run, r),
                     op := if run.op.Some? then Some(OpAfter(r.status)) else None);
    AssignSlot(next, !Terminal(next.status))
  }

  /** A report that is dropped: a worker's fallback never displaces anything better known. */
  predicate Ignored(c: Cell, r: Report) {
    IsFallback(r) && (Rich(c) || c.run.status == PendingReconcile || c.run.held == Some(false) || c.run.released)
  }

  /** `_commit_retained_progress`: only references are kept, the run stays unresolved. */
  function ProgressKept(run: Run): Run {
    AssignSlot(run.(stash := None, stashApproval := None), false)
      .(status := PendingReconcile, terminated := false, op := Unresolved(run.op))
  }

  /** Which writes of a recording fail. */
  datatype Faults = Faults(record: bool, preserve: bool)

  predicate Closed(run: Run) {
    Terminal(run.status) || !run.current
  }

  /** `_record_result` of a fresh report. */
  function Record(c: Cell, r: Report, approval: Option<nat>, faults: Faults): Cell {
    if faults.record then Preserve(c, r, approval, faults.preserve)
    else if Closed(c.run) then c.(retained := None)
    else if Ignored(c, r) then c
    else Project(c.(run := Recorded(c.run, r), retained := None))
  }

  /** `_record_result` of a remembered or stashed report: progress is not replayed as progress. */
  function Replay(c: Cell, r: Report, approval: Option<nat>, faults: Faults): Cell {
    if !IsProgress(r) then Record(c, r, approval, faults)
    else if faults.record then Preserve(c, r, approval, faults.preserve)
    else Project(c.(run := if Closed(c.run) then c.run else ProgressKept(c.run), retained := None))
  }

  predicate Due(c: Cell) {
    c.retained.Some? && c.retained.value.readyAt <= c.epoch
  }

  // ---------------------------------------------------------------- steps of one run

  datatype Step =
    | Enqueue
    | BeginDispatch
    | CommitDispatch
    | CallBackend(background: bool)
    | AbandonDispatch
    | ReturnCall(report: Report, faults: Faults)
    | RaiseCall
    | RefuseQueued
    | RecordReport(report: Report, faults: Faults)
    | EndWorker
    | Poll(faults: Faults)
    | ApplyStash(faults: Faults)
    | ReconcileOp
    | ReconcileStatus
    | ReleaseUntracked
    | RequestCancel
    | Pause
    | Resume
    | BeginForward
    | SendForward
    | DropQueued
    | ProjectMarks
    | Crash
    | Restore

  /** A step's recording: the cell it starts from and the report it writes. */
  datatype Writing = Writing(base: Cell, report: Report, approval: Option<nat>, faults: Faults, replay: bool)

  predicate Writes(step: Step) {
    step.ReturnCall? || step.RecordReport? || step.Poll? || step.ApplyStash?
  }

  function WritingOf(c: Cell, step: Step): Option<Writing> {
    match step
    case ReturnCall(report, faults) =>
      if c.stage.Calling? then Some(Writing(c.(stage := Idle), report, None, faults, false)) else None
    case RecordReport(report, faults) => Some(Writing(c, report, None, faults, false))
    case Poll(faults) =>
      var later := c.(epoch := c.epoch + 1);
      if Due(later) then Some(Writing(later, later.retained.value.report, later.retained.value.approval, faults, true))
      else None
    case ApplyStash(faults) =>
      if c.run.stash.Some? && !c.worker then Some(Writing(c, c.run.stash.value, c.run.stashApproval, faults, true))
      else None
    case _ => None
  }

  function Written(w: Writing): Cell {
    if w.replay then Replay(w.base, w.report, w.approval, w.faults) else Record(w.base, w.report, w.approval, w.faults)
  }

  function AfterWriting(c: Cell, step: Step): Cell {
    match WritingOf(c, step)
    case Some(w) => Written(w)
    case None => if step.Poll? then c.(epoch := c.epoch + 1) else c
  }

  predicate Dispatchable(run: Run) {
    run.op == Some(Intended) && run.status == Queued && !run.cancelRequested
  }

  function Resumed(run: Run): RunStatus {
    if run.op == Some(Intended) then Queued
    else if run.op == Some(Unknown) then PendingReconcile
    else if run.pending.Some? then WaitingInput else Running
  }

  predicate MayForward(c: Cell) {
    && c.stage == Idle && c.forwarding == None && c.run.pending.Some? && c.run.pending.value !in c.run.attempts
    && c.run.current && c.run.status == WaitingInput && !c.run.cancelRequested
  }

  function Next(c: Cell, step: Step): Cell {
    match step
    case Enqueue => if c.run.op == Some(Intended) then c.(queued := true) else c
    case BeginDispatch =>
      if c.stage == Idle && Dispatchable(c.run) then
        c.(queued := false, stage := Marked, run := AssignSlot(c.run, true).(status := Dispatching))
      else c
    case CommitDispatch =>
      if c.stage == Marked then Project(c.(stage := Committed, run := c.run.(op := Some(Dispatched)))) else c
    case CallBackend(background) =>
      if c.stage == Committed then
        c.(calls := c.calls + 1, worker := background || c.worker, stage := if background then Idle else Calling(c.run))
      else c
    case AbandonDispatch => if c.stage == Marked || c.stage == Committed then c.(stage := Idle) else c
    case ReturnCall(_, _) => AfterWriting(c, step)
    case RaiseCall =>
      if c.stage.Calling? then
        c.(stage := Idle, run := c.stage.stale.(status := PendingReconcile, op := Unresolved(c.stage.stale.op)))
      else c
    case RefuseQueued =>
      if c.stage == Idle && c.run.op == Some(Intended) && !Terminal(c.run.status) then
        c.(queued := false, run := c.run.(status := Failed, terminated := true, op := Some(OpFailed)))
      else c
    case RecordReport(_, _) => AfterWriting(c, step)
    case EndWorker => c.(worker := false)
    case Poll(_) => AfterWriting(c, step)
    case ApplyStash(_) => AfterWriting(c, step)
    case ReconcileOp =>
      if c.run.op == Some(Dispatched) && !Terminal(c.run.status) && !c.worker then c.(run := c.run.(op := Some(Unknown)))
      else c
    case ReconcileStatus =>
      if c.run.op == Some(Unknown) && !Terminal(c.run.status) && !c.worker then c.(run := c.run.(status := PendingReconcile))
      else c
    case ReleaseUntracked =>
      if c.run.op == None && !Terminal(c.run.status) then
        Project(c.(run := AssignSlot(c.run, false).(status := PendingReconcile,
                     terminated := if c.run.status == PendingReconcile then c.run.terminated else false)))
      else c
    case RequestCancel => if Terminal(c.run.status) then c else c.(run := c.run.(cancelRequested := true))
    case Pause => if Terminal(c.run.status) || c.worker || !c.stage.Idle? then c else c.(run := c.run.(status := Paused))
    case Resume => if c.run.status == Paused && c.stage.Idle? then c.(run := c.run.(status := Resumed(c.run))) else c
    case BeginForward =>
      if MayForward(c) then
        c.(forwarding := c.run.pending,
           run := c.run.(attempts := c.run.attempts + {c.run.pending.value}, pending := None))
      else c
    case SendForward =>
      if c.forwarding.Some? then c.(sent := c.sent + multiset{c.forwarding.value}, forwarding := None) else c
    case DropQueued => if Closed(c.run) then c.(queued := false) else c
    case ProjectMarks => Project(c)
    case Crash =>
      c.(slot := false, queued := false, retained := None, worker := false, stage := Idle, forwarding := None, epoch := 0)
    case Restore =>
      if Terminal(c.run.status) then c
      else if c.run.op == Some(Intended) then c.(slot := false, queued := true)
      else Project(c)
  }

  function Execute(c: Cell, steps: seq<Step>): Cell
    decreases |steps|
  {
    if steps == [] then c else Execute(Next(c, steps[0]), steps[1..])
  }

  // ---------------------------------------------------------------- what one pass does to a run

  lemma {:induction false} ExecuteTwo(c: Cell, first: seq<Step>, step: Step)
    ensures Execute(c, first + [step]) == Next(Execute(c, first), step)
    decreases |first|
  {
    if first == [] {
      assert Execute(c, [] + [step]) == Execute(Next(c, step), []);
    } else {
      assert (first + [step])[1..] == first[1..] + [step];
      ExecuteTwo(Next(c, first[0]), first[1..], step);
    }
  }

  /** A whole dispatch, up to the call. */
  function Sent(c: Cell, background: bool): Cell {
    Next(Next(Next(c, BeginDispatch), CommitDispatch), CallBackend(background))
  }

  /** One queue item's share of `_drain_queue`: a run that is over or replaced leaves the queue, one that
      may not start yet stays, and an intent is sent or, if its checks fail, refused. */
  function Drained(c: Cell, allowed: bool, checks: bool, background: bool): Cell {
    if Closed(c.run) then Next(c, DropQueued)
    else if !allowed || c.run.op != Some(Intended) then c
    else if checks && Dispatchable(c.run) then Sent(c, background)
    else Next(c, RefuseQueued)
  }

  /** What a restart learns about a run: whether the writes of a stashed report go through, twice, and
      what a lost process is proven to have reported. */
  datatype Restart = Restart(stash: Faults, again: Faults, lost: Option<Report>, lostFaults: Faults)

  /** `_reconcile_one`: the stash again, then the operation and its run are marked unresolved. */
  function Reconciled(c: Cell, again: Faults): Cell {
    var d := Next(c, ApplyStash(again));
    if Terminal(d.run.status) then d
    else if d.run.op == None then Next(d, ReleaseUntracked)
    else if d.run.op == Some(Dispatched) then Next(Next(d, ReconcileOp), ReconcileStatus)
    else d
  }

  /** An unfinished run, once its stash was looked at. */
  function Resettled(d: Cell, a: Restart): Cell {
    if Terminal(d.run.status) then Next(d, ProjectMarks)
    else if d.run.op == Some(Intended) then Next(d, Restore)
    else if d.run.op == None then Reconciled(d, a.again)
    else if a.lost.Some? then
      var e := Next(d, RecordReport(a.lost.value, a.lostFaults));
      if a.lostFaults.record then e else Next(e, ProjectMarks)
    else Reconciled(Next(d, ProjectMarks), a.again)
  }

  /** One task's share of `_restore_scheduler`. */
  function Restored(c: Cell, a: Restart): Cell {
    if Closed(c.run) then c else Resettled(Next(c, ApplyStash(a.stash)), a)
  }

  /** The recording of a lost process's report failed, which ends the restart. */
  predicate RestoreFails(c: Cell, a: Restart) {
    !Closed(c.run) && ResettleFails(Next(c, ApplyStash(a.stash)), a)
  }

  predicate ResettleFails(d: Cell, a: Restart) {
    && a.lost.Some? && a.lostFaults.record
    && !Terminal(d.run.status) && d.run.op != Some(Intended) && d.run.op != None
  }

  // ---------------------------------------------------------------- at most one dispatch

  predicate CallsOk(c: Cell) {
    && c.calls <= 1
    && (c.stage == Marked || c.stage == Committed ==> c.calls == 0)
    && (c.calls == 1 || c.stage == Committed ==> c.run.op.Some? && c.run.op.value != Intended)
    && (c.stage.Calling? ==> c.calls == 1 && c.stage.stale.op.Some? && c.stage.stale.op.value != Intended)
    && (c.stage == Marked ==> c.run.op.Some?)
  }

  /** A recording never makes a call, and leaves an operation that has left INTENDED outside it. */
  predicate NoCall(c: Cell, d: Cell) {
    d.calls == c.calls && d.stage == c.stage
    && (c.run.op.Some? ==> d.run.op.Some? && (d.run.op == c.run.op || d.run.op.value != Intended))
  }

  lemma PreserveMakesNoCall(c: Cell, r: Report, approval: Option<nat>, fails: bool)
    ensures NoCall(c, Preserve(c, r, approval, fails))
  {
  }

  lemma RecordMakesNoCall(c: Cell, r: Report, approval: Option<nat>, faults: Faults)
    ensures NoCall(c, Record(c, r, approval, faults))
  {
    PreserveMakesNoCall(c, r, approval, faults.preserve);
  }

  lemma WritingMakesNoCall(w: Writing)
    ensures NoCall(w.base, Written(w))
  {
    RecordMakesNoCall(w.base, w.report, w.approval, w.faults);
    PreserveMakesNoCall(w.base, w.report, w.approval, w.faults.preserve);
  }

  lemma NoCallKeeps(c: Cell, d: Cell)
    requires CallsOk(c) && NoCall(c, d)
    ensures CallsOk(d)
  {
  }

  /** A recording step starts from the same persisted run, with the call returned or the clock moved. */
  predicate StartsFrom(c: Cell, base: Cell) {
    base == c.(stage := base.stage, epoch := base.epoch) && (base.stage == c.stage || (c.stage.Calling? && base.stage == Idle))
    && base.epoch >= c.epoch
  }

  lemma WritingStarts(c: Cell, step: Step)
    ensures WritingOf(c, step).Some? ==> Writes(step) && StartsFrom(c, WritingOf(c, step).value.base)
  {
  }

  lemma WritingStep(c: Cell, step: Step)
    requires CallsOk(c) && Writes(step)
    ensures CallsOk(AfterWriting(c, step)) && AfterWriting(c, step).calls == c.calls
  {
    if WritingOf(c, step).Some? {
      var w := WritingOf(c, step).value;
      WritingStarts(c, step);
      WritingMakesNoCall(w);
      assert CallsOk(w.base);
      NoCallKeeps(w.base, Written(w));
    }
  }

  lemma CallsStep(c: Cell, step: Step)
    requires CallsOk(c)
    ensures CallsOk(Next(c, step))
  {
    if Writes(step) {
      WritingStep(c, step);
    }
  }

  /** Over every execution with crashes at every persistence point, the backend is called at most
      once, and only when the stored operation has left INTENDED for good. */
  lemma {:induction false} DispatchedAtMostOnce(c: Cell, steps: seq<Step>)
    requires CallsOk(c)
    ensures CallsOk(Execute(c, steps)) && Execute(c, steps).calls <= 1
    decreases |steps|
  {
    if steps != [] {
      CallsStep(c, steps[0]);
      DispatchedAtMostOnce(Next(c, steps[0]), steps[1..]);
    }
  }

  /** A backend call is made in one step only, and that step finds the commit on disk. */
  lemma CallNeedsCommit(c: Cell, step: Step)
    requires CallsOk(c) && Next(c, step).calls > c.calls
    ensures step.CallBackend? && c.stage == Committed && c.run.op.Some? && c.run.op.value != Intended
  {
    if Writes(step) {
      WritingStep(c, step);
    }
  }

  lemma TwoCallsSteps(c: Cell, first: Step, second: Step)
    requires CallsOk(c)
    ensures CallsOk(Next(Next(c, first), second))
  {
    CallsStep(c, first);
    CallsStep(Next(c, first), second);
  }

  /** Draining a queue never calls a backend for a run that was called before, nor twice. */
  lemma DrainCallsOnce(c: Cell, allowed: bool, checks: bool, background: bool)
    requires CallsOk(c)
    ensures CallsOk(Drained(c, allowed, checks, background)) && Drained(c, allowed, checks, background).calls <= 1
    ensures Drained(c, allowed, checks, background).calls > c.calls
        ==> allowed && checks && Dispatchable(c.run) && !Closed(c.run)
  {
    TwoCallsSteps(c, BeginDispatch, CommitDispatch);
    CallsStep(Next(Next(c, BeginDispatch), CommitDispatch), CallBackend(background));
    CallsStep(c, RefuseQueued);
    CallsStep(c, DropQueued);
  }

  lemma StepCalls(c: Cell, step: Step)
    requires !step.CallBackend?
    ensures Next(c, step).calls == c.calls
  {
    if WritingOf(c, step).Some? {
      WritingStarts(c, step);
      WritingMakesNoCall(WritingOf(c, step).value);
    }
  }

  lemma ReconcileCallsNothing(c: Cell, again: Faults)
    ensures Reconciled(c, again).calls == c.calls
  {
    var d := Next(c, ApplyStash(again));
    StepCalls(c, ApplyStash(again));
    StepCalls(d, ReleaseUntracked);
    StepCalls(d, ReconcileOp);
    StepCalls(Next(d, ReconcileOp), ReconcileStatus);
  }

  /** A restart calls no backend, whatever it finds. */
  lemma RestoreCallsNothing(c: Cell, a: Restart)
    ensures Restored(c, a).calls == c.calls
  {
    var d := Next(c, ApplyStash(a.stash));
    StepCalls(c, ApplyStash(a.stash));
    StepCalls(d, Restore);
    StepCalls(d, ProjectMarks);
    ReconcileCallsNothing(d, a.again);
    ReconcileCallsNothing(Next(d, ProjectMarks), a.again);
    if a.lost.Some? {
      StepCalls(d, RecordReport(a.lost.value, a.lostFaults));
      StepCalls(Next(d, RecordReport(a.lost.value, a.lostFaults)), ProjectMarks);
    }
  }

  // ---------------------------------------------------------------- terminal statuses absorb

  lemma RecordAbsorbs(c: Cell, r: Report, approval: Option<nat>, faults: Faults)
    requires Terminal(c.run.status)
    ensures Record(c, r, approval, faults).run == c.run && Replay(c, r, approval, faults).run == c.run
  {
  }

  /** Whatever is recorded, retried, preserved, reconciled, paused, cancelled or restored, a terminal
      status stays. */
  lemma TerminalAbsorbs(c: Cell, step: Step)
    requires Terminal(c.run.status) && !step.RaiseCall?
    ensures Next(c, step).run.status == c.run.status
  {
    if WritingOf(c, step).Some? {
      var w := WritingOf(c, step).value;
      WritingStarts(c, step);
      RecordAbsorbs(w.base, w.report, w.approval, w.faults);
    }
  }

  /** The one step that reopens a finished run: a synchronous call raises after the run's final report
      was recorded while the call lasted. */
  predicate RaisesLate(c: Cell, step: Step) {
    step.RaiseCall? && c.stage.Calling? && Terminal(c.run.status)
  }

  predicate NeverRaisesLate(c: Cell, steps: seq<Step>)
    decreases |steps|
  {
    steps == [] || (!RaisesLate(c, steps[0]) && NeverRaisesLate(Next(c, steps[0]), steps[1..]))
  }

  /** Once finished a run keeps its status over every execution without such a call. */
  lemma {:induction false} TerminalForGood(c: Cell, steps: seq<Step>)
    requires Terminal(c.run.status) && NeverRaisesLate(c, steps)
    ensures Execute(c, steps).run.status == c.run.status
    decreases |steps|
  {
    if steps != [] {
      if !steps[0].RaiseCall? {
        TerminalAbsorbs(c, steps[0]);
      }
      TerminalForGood(Next(c, steps[0]), steps[1..]);
    }
  }

  const FRESH_RUN := Run(Some(Intended), Queued, false, false, None, false, None, None, {}, None, true)

  const FRESH_CELL := Cell(FRESH_RUN, false, true, None, false, Idle, None, 0, 0, multiset{})

  function Reported(status: RunStatus, terminated: bool): Report {
    Report(status, terminated, false, true, None, false)
  }

  const NO_FAULTS := Faults(false, false)

  predicate Reopens(c: Cell, step: Step) {
    Terminal(c.run.status) && !Terminal(Next(c, step).run.status)
  }

  /** The one exception, and its exact condition: a synchronous call that raises saves the run it
      loaded before the call, which reopens the run if and only if its final report had already
      been recorded while the call lasted. */
  lemma ReopenedExactly(c: Cell, step: Step)
    ensures Reopens(c, step) <==> RaisesLate(c, step)
  {
    if Terminal(c.run.status) && !step.RaiseCall? {
      TerminalAbsorbs(c, step);
    }
  }

  /** It happens: an adapter publishes its final report through the call and then raises. */
  lemma FinishedRunCanReopen()
    ensures exists steps, last ::
              Terminal(Execute(FRESH_CELL, steps).run.status)
              && Next(Execute(FRESH_CELL, steps), last).run.status == PendingReconcile
  {
    var publish := RecordReport(Reported(Succeeded, true), NO_FAULTS);
    var steps := [] + [BeginDispatch] + [CommitDispatch] + [CallBackend(false)] + [publish];
    FourSteps(FRESH_CELL, BeginDispatch, CommitDispatch, CallBackend(false), publish);
    FinishedDuringCall();
    assert Terminal(Execute(FRESH_CELL, steps).run.status);
  }

  lemma FinishedDuringCall()
    ensures var c := Next(Next(Next(Next(FRESH_CELL, BeginDispatch), CommitDispatch), CallBackend(false)),
                          RecordReport(Reported(Succeeded, true), NO_FAULTS));
            Terminal(c.run.status) && Next(c, RaiseCall).run.status == PendingReconcile
  {
    var called := Next(Next(Next(FRESH_CELL, BeginDispatch), CommitDispatch), CallBackend(false));
    assert called.stage.Calling? && called.run.op == Some(Dispatched) && called.run.status == Dispatching;
  }

  lemma FourSteps(c: Cell, s1: Step, s2: Step, s3: Step, s4: Step)
    ensures Execute(c, [] + [s1] + [s2] + [s3] + [s4]) == Next(Next(Next(Next(c, s1), s2), s3), s4)
  {
    ExecuteTwo(c, [], s1);
    ExecuteTwo(c, [] + [s1], s2);
    ExecuteTwo(c, [] + [s1] + [s2], s3);
    ExecuteTwo(c, [] + [s1] + [s2] + [s3], s4);
  }

  // ---------------------------------------------------------------- richer reports survive fallbacks

  predicate RichStash(c: Cell) {
    c.run.stash.Some? && !IsFallback(c.run.stash.value)
  }

  predicate RichRetained(c: Cell) {
    c.retained.Some? && !IsFallback(c.retained.value.report)
  }

  /** A worker's fallback, written or failing to be written, displaces neither a retained nor a
      stashed richer report of a run that is still open. */
  lemma FallbackNeverDisplaces(c: Cell, r: Report, approval: Option<nat>, faults: Faults)
    requires IsFallback(r) && !Closed(c.run)
    ensures var d := Record(c, r, approval, faults);
            && (RichRetained(c) ==> d.retained == c.retained)
            && (RichStash(c) ==> d.run.stash == c.run.stash)
            && (Rich(c) && !faults.record ==> d == c)
  {
  }

  predicate CommitsRicher(c: Cell, step: Step) {
    || (step.RaiseCall? && c.stage.Calling?)
    || (WritingOf(c, step).Some? && !WritingOf(c, step).value.faults.record && !IsFallback(WritingOf(c, step).value.report))
  }

  lemma RecordKeepsStash(c: Cell, r: Report, approval: Option<nat>, faults: Faults)
    requires RichStash(c) && (faults.record || IsFallback(r))
    ensures RichStash(Record(c, r, approval, faults)) && RichStash(Replay(c, r, approval, faults))
  {
  }

  /** A stashed richer report lasts, through crashes too, until a report that is no fallback has
      been committed (or a raising call has put the old run back). */
  lemma StashSurvives(c: Cell, step: Step)
    requires RichStash(c) && !CommitsRicher(c, step)
    ensures RichStash(Next(c, step))
  {
    if WritingOf(c, step).Some? {
      var w := WritingOf(c, step).value;
      WritingStarts(c, step);
      RecordKeepsStash(w.base, w.report, w.approval, w.faults);
    }
  }

  // ---------------------------------------------------------------- slots

  predicate SlotAgrees(c: Cell) {
    c.slot == SlotHeld(c.run)
  }

  /** After a recording has committed something, the scheduler holds the run's slot exactly when the
      stored marks say so; after a failed one, exactly when the preserving write went through or
      the run held no slot anyway. */
  lemma RecordedSlotAgrees(c: Cell, r: Report, approval: Option<nat>, faults: Faults)
    ensures var d := Record(c, r, approval, faults);
            && (!faults.record && !Closed(c.run) && !Ignored(c, r) ==> SlotAgrees(d))
            && (faults.record ==> (SlotAgrees(d) <==> !faults.preserve || !SlotHeld(c.run)))
  {
  }

  lemma ReplayedSlotAgrees(c: Cell, r: Report, approval: Option<nat>, faults: Faults)
    requires IsProgress(r)
    ensures var d := Replay(c, r, approval, faults);
            SlotAgrees(d) <==> !faults.record || !faults.preserve || !SlotHeld(c.run)
  {
  }

  /** A restart rebuilds the slots from the stored marks alone, and queues again what was never sent.
      Slot and mark disagree afterwards exactly for an intent whose dispatch was marked and then lost
      before its operation was stored as dispatched. */
  lemma RestoreRebuildsSlot(c: Cell)
    ensures var d := Next(Next(c, Crash), Restore);
            SlotAgrees(d) <==> Terminal(c.run.status) || c.run.op != Some(Intended) || c.run.held != Some(true)
    ensures c.run.op == Some(Intended) && !Terminal(c.run.status) ==> Next(Next(c, Crash), Restore).queued
  {
  }

  /** Such an intent is reached by a crash right after the first of the two dispatch writes. */
  lemma MarkedIntentLosesSlot()
    ensures var c := Execute(FRESH_CELL, [BeginDispatch, Crash, Restore]);
            !SlotAgrees(c) && c.run.op == Some(Intended) && c.queued && c.calls == 0
  {
    ThreeSteps(FRESH_CELL, BeginDispatch, Crash, Restore);
    MarkedThenCrashed();
  }

  lemma MarkedThenCrashed()
    ensures var c := Next(Next(Next(FRESH_CELL, BeginDispatch), Crash), Restore);
            !SlotAgrees(c) && c.run.op == Some(Intended) && c.queued && c.calls == 0
  {
  }

  lemma ThreeSteps(c: Cell, s1: Step, s2: Step, s3: Step)
    ensures Execute(c, [s1, s2, s3]) == Next(Next(Next(c, s1), s2), s3)
  {
    ExecuteTwo(c, [s1, s2], s3);
    ExecuteTwo(c, [s1], s2);
    ExecuteTwo(c, [], s1);
    assert [] + [s1] == [s1] && [s1] + [s2] == [s1, s2] && [s1, s2] + [s3] == [s1, s2, s3];
  }

  // ---------------------------------------------------------------- bounded retry

  lemma {:induction false} GapBounds(failures: nat)
    ensures 1 <= BackoffGap(failures) <= BACKOFF_CAP
  {
    if failures > 1 {
      PowerPositive(failures - 1);
    }
  }

  lemma {:induction false} PowerPositive(n: nat)
    ensures Power2(n) >= 1
  {
    if n > 0 {
      PowerPositive(n - 1);
    }
  }

  /** Whatever has failed so far, a retained report is due within eight polls. */
  predicate RetrySoon(c: Cell) {
    c.retained.Some? ==> c.retained.value.readyAt <= c.epoch + BACKOFF_CAP
  }

  lemma RecordKeepsRetrySoon(c: Cell, r: Report, approval: Option<nat>, faults: Faults)
    requires RetrySoon(c)
    ensures RetrySoon(Record(c, r, approval, faults)) && RetrySoon(Replay(c, r, approval, faults))
  {
    GapBounds((if c.retained.Some? then c.retained.value.failures else 0) + 1);
  }

  lemma RetryStep(c: Cell, step: Step)
    requires RetrySoon(c)
    ensures RetrySoon(Next(c, step))
  {
    if WritingOf(c, step).Some? {
      var w := WritingOf(c, step).value;
      WritingStarts(c, step);
      RecordKeepsRetrySoon(w.base, w.report, w.approval, w.faults);
    }
  }

  /** How many more polls until the retained report is tried again. */
  function Wait(c: Cell): nat
    requires c.retained.Some?
  {
    if c.retained.value.readyAt <= c.epoch + 1 then 1 else c.retained.value.readyAt - c.epoch
  }

  function PollsIn(steps: seq<Step>): nat {
    if steps == [] then 0 else (if steps[0].Poll? then 1 else 0) + PollsIn(steps[1..])
  }

  /** The retained report is tried again in this step. */
  predicate Retries(c: Cell, step: Step) {
    step.Poll? && Due(c.(epoch := c.epoch + 1))
  }

  /** The retained report is tried, or a newer report of the run is committed instead. */
  predicate Answered(c: Cell, steps: seq<Step>)
    decreases |steps|
  {
    steps != [] && (Retries(c, steps[0]) || Next(c, steps[0]).retained.None? || Answered(Next(c, steps[0]), steps[1..]))
  }

  /** What puts a retry off: a crash, and another recording of the same run that fails too. */
  predicate PutsOff(c: Cell, step: Step) {
    step.Crash? || (!step.Poll? && WritingOf(c, step).Some? && WritingOf(c, step).value.faults.record)
  }

  predicate Undisturbed(c: Cell, steps: seq<Step>)
    decreases |steps|
  {
    steps == [] || (!PutsOff(c, steps[0]) && Undisturbed(Next(c, steps[0]), steps[1..]))
  }

  lemma KeptUnlessAnswered(c: Cell, step: Step)
    requires c.retained.Some? && !PutsOff(c, step) && !Retries(c, step) && Next(c, step).retained.Some?
    ensures Next(c, step).retained == c.retained
    ensures Next(c, step).epoch == c.epoch + if step.Poll? then 1 else 0
  {
  }

  lemma {:induction false} AnsweredInTime(c: Cell, steps: seq<Step>)
    requires c.retained.Some? && Wait(c) <= PollsIn(steps) && Undisturbed(c, steps)
    ensures Answered(c, steps)
    decreases |steps|
  {
    if !Retries(c, steps[0]) && Next(c, steps[0]).retained.Some? {
      KeptUnlessAnswered(c, steps[0]);
      AnsweredInTime(Next(c, steps[0]), steps[1..]);
    }
  }

  /** In every reachable state a retained report is answered within eight polls, whatever other steps
      come between them, short of a crash or another failed recording of the run. */
  lemma {:induction false} RetriedWithinEightPolls(c: Cell, history: seq<Step>, steps: seq<Step>)
    requires RetrySoon(c) && PollsIn(steps) >= BACKOFF_CAP && Undisturbed(Execute(c, history), steps)
    ensures Execute(c, history).retained.Some? ==> Answered(Execute(c, history), steps)
    decreases |history|
  {
    if history == [] {
      if c.retained.Some? {
        AnsweredInTime(c, steps);
      }
    } else {
      RetryStep(c, history[0]);
      RetriedWithinEightPolls(Next(c, history[0]), history[1..], steps);
    }
  }

  /** `n` polls, each preceded by a recording that fails. */
  function Failing(n: nat): seq<Step> {
    if n == 0 then []
    else [RecordReport(Reported(Running, false), Faults(true, true)), Poll(NO_FAULTS)] + Failing(n - 1)
  }

  /** The exception is needed: failed recordings can put a retry off for any number of polls. */
  lemma {:induction false} FailuresPutOff(c: Cell, n: nat)
    requires c.retained.Some? && c.retained.value.failures >= 1
    ensures PollsIn(Failing(n)) == n && !Answered(c, Failing(n))
    decreases n
  {
    if n > 0 {
      var steps := Failing(n);
      var d := Next(c, steps[0]);
      assert steps[1..][1..] == Failing(n - 1);
      assert d.retained.Some? && d.retained.value.failures >= 2 && d.retained.value.readyAt >= c.epoch + 2 by {
        PowerPositive(d.retained.value.failures - 2);
      }
      var e := Next(d, steps[1]);
      assert !Retries(d, steps[1]) && e.retained == d.retained;
      FailuresPutOff(e, n - 1);
      assert PollsIn(steps) == PollsIn(steps[1..]) && PollsIn(steps[1..]) == 1 + PollsIn(steps[1..][1..]);
      assert Answered(c, steps) == Answered(d, steps[1..]);
    }
  }

  // ---------------------------------------------------------------- at most one forward per request

  ghost predicate ForwardsOk(c: Cell) {
    && (forall h: nat :: c.sent[h] <= 1)
    && (forall h: nat :: h in c.sent ==> h in c.run.attempts)
    && (c.forwarding.Some? ==> c.forwarding.value in c.run.attempts && c.sent[c.forwarding.value] == 0)
    && (c.run.pending.Some? ==> c.run.pending.value !in c.run.attempts)
    && (c.stage.Calling? ==> c.stage.stale.attempts == c.run.attempts
                             && (c.stage.stale.pending.Some? ==> c.stage.stale.pending.value !in c.run.attempts))
  }

  lemma {:induction false} FreshIsNew(requests: seq<nat>, attempts: set<nat>)
    ensures FirstFresh(requests, attempts).Some? ==>
              FirstFresh(requests, attempts).value in requests && FirstFresh(requests, attempts).value !in attempts
    ensures FirstFresh(requests, attempts).None? ==> forall i :: 0 <= i < |requests| ==> requests[i] in attempts
  {
    if requests != [] && requests[0] in attempts {
      FreshIsNew(requests[1..], attempts);
      if FirstFresh(requests, attempts).None? {
        forall i | 0 <= i < |requests| ensures requests[i] in attempts {
          if i > 0 {
            assert requests[i] == requests[1..][i - 1];
          }
        }
      }
    }
  }

  /** What forwarding cares about is untouched, and an open approval is for a request never tried. */
  predicate SameForwards(c: Cell, d: Cell) {
    && d.sent == c.sent && d.forwarding == c.forwarding && d.run.attempts == c.run.attempts
    && (d.stage == c.stage || d.stage == Idle)
    && (d.run.pending.Some? ==> d.run.pending.value !in d.run.attempts)
  }

  lemma PendingIsNew(run: Run, r: Report)
    requires run.pending.Some? ==> run.pending.value !in run.attempts
    ensures PendingAfter(run, r).Some? ==> PendingAfter(run, r).value !in run.attempts
  {
    FreshIsNew(Requests(r), run.attempts);
  }

  /** The run looks the same to forwarding. */
  predicate SameForwarding(a: Run, b: Run) {
    b.attempts == a.attempts && b.pending == a.pending
  }

  lemma PreservedForwards(run: Run, r: Report, approval: Option<nat>)
    ensures SameForwarding(run, Preserved(run, r, approval)) && SameForwarding(run, ProgressKept(run))
  {
  }

  lemma RememberForwards(c: Cell, r: Report, approval: Option<nat>)
    ensures Remember(c, r, approval) == c.(retained := Remember(c, r, approval).retained)
  {
  }

  lemma RecordedForwards(run: Run, r: Report)
    ensures Recorded(run, r).attempts == run.attempts && Recorded(run, r).pending == PendingAfter(run, r)
  {
  }

  lemma PreserveForwardsNothing(c: Cell, r: Report, approval: Option<nat>, fails: bool)
    requires c.run.pending.Some? ==> c.run.pending.value !in c.run.attempts
    ensures SameForwards(c, Preserve(c, r, approval, fails))
  {
    RememberForwards(c, r, approval);
    PreservedForwards(c.run, r, approval);
  }

  lemma WritingForwardsNothing(w: Writing)
    requires w.base.run.pending.Some? ==> w.base.run.pending.value !in w.base.run.attempts
    ensures SameForwards(w.base, Written(w))
  {
    PreserveForwardsNothing(w.base, w.report, w.approval, w.faults.preserve);
    RecordedForwards(w.base.run, w.report);
    PreservedForwards(w.base.run, w.report, w.approval);
    PendingIsNew(w.base.run, w.report);
  }

  lemma SameForwardsKeeps(c: Cell, d: Cell)
    requires ForwardsOk(c) && SameForwards(c, d)
    ensures ForwardsOk(d)
  {
  }

  lemma WritingForwardStep(c: Cell, step: Step)
    requires ForwardsOk(c) && Writes(step)
    ensures ForwardsOk(AfterWriting(c, step))
  {
    if WritingOf(c, step).Some? {
      var w := WritingOf(c, step).value;
      WritingStarts(c, step);
      assert ForwardsOk(w.base);
      WritingForwardsNothing(w);
      SameForwardsKeeps(w.base, Written(w));
    }
  }

  predicate Dispatches(step: Step) {
    step.BeginDispatch? || step.CommitDispatch? || step.CallBackend? || step.AbandonDispatch? || step.RaiseCall?
  }

  lemma DispatchForwardStep(c: Cell, step: Step)
    requires ForwardsOk(c) && Dispatches(step)
    ensures ForwardsOk(Next(c, step))
  {
  }

  lemma ForwardingStep(c: Cell, step: Step)
    requires ForwardsOk(c) && (step.BeginForward? || step.SendForward?)
    ensures ForwardsOk(Next(c, step))
  {
  }

  lemma QuietStep(c: Cell, step: Step)
    requires ForwardsOk(c) && !Writes(step) && !Dispatches(step) && !step.BeginForward? && !step.SendForward?
    ensures ForwardsOk(Next(c, step))
  {
  }

  lemma ForwardStep(c: Cell, step: Step)
    requires ForwardsOk(c)
    ensures ForwardsOk(Next(c, step))
  {
    if Writes(step) {
      WritingForwardStep(c, step);
    } else if Dispatches(step) {
      DispatchForwardStep(c, step);
    } else if step.BeginForward? || step.SendForward? {
      ForwardingStep(c, step);
    } else {
      QuietStep(c, step);
    }
  }

  /** For each request digest of the run, the backend is asked at most once over every execution:
      crashes, lost replies, failed writes and a backend that repeats its request included. */
  lemma {:induction false} ForwardedAtMostOnce(c: Cell, steps: seq<Step>, digest: nat)
    requires ForwardsOk(c)
    ensures ForwardsOk(Execute(c, steps)) && Execute(c, steps).sent[digest] <= 1
    decreases |steps|
  {
    if steps != [] {
      ForwardStep(c, steps[0]);
      ForwardedAtMostOnce(Next(c, steps[0]), steps[1..], digest);
    }
  }

  lemma FreshCellOk()
    ensures CallsOk(FRESH_CELL) && ForwardsOk(FRESH_CELL) && RetrySoon(FRESH_CELL)
  {
  }

  /** From its creation on a run reaches a backend at most once and answers each request at most once,
      and after any history its retained report is answered within eight undisturbed polls. */
  lemma FromCreation(steps: seq<Step>, digest: nat, later: seq<Step>)
    ensures Execute(FRESH_CELL, steps).calls <= 1 && Execute(FRESH_CELL, steps).sent[digest] <= 1
    ensures Execute(FRESH_CELL, steps).retained.Some? && PollsIn(later) >= BACKOFF_CAP
            && Undisturbed(Execute(FRESH_CELL, steps), later)
        ==> Answered(Execute(FRESH_CELL, steps), later)
  {
    FreshCellOk();
    DispatchedAtMostOnce(FRESH_CELL, steps);
    ForwardedAtMostOnce(FRESH_CELL, steps, digest);
    if PollsIn(later) >= BACKOFF_CAP && Undisturbed(Execute(FRESH_CELL, steps), later) {
      RetriedWithinEightPolls(FRESH_CELL, steps, later);
    }
  }
}
