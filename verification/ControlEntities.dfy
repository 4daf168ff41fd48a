/** Statuses of the control entities and the edges between them, and the rows one admitted
    attempt owns. `_admit` mints the Run, Action, Assignment, Grant, lease, outbox and Reservation
    rows of an attempt together, so they share the attempt's number here. */
module ControlEntities {
  import opened Wrappers
  import opened ControlLedger
  import Fencing
  import Outbox

  datatype TaskStatus = Draft | Ready | Active | Succeeded | Failed | Canceled

  datatype RunStatus =
    | Queued | Preparing | Running | Waiting | Pausing | Paused | Reconciling | Canceling
    | Succeeded | Failed | Canceled

  datatype AssignmentStatus = Pending | Ready | Running | Waiting | Verifying | Succeeded | Failed | Canceled

  datatype ActionStatus =
    | Planned | WaitingApproval | Admitted | Executing | Verifying | UnknownRemote
    | Succeeded | Failed | Denied | Canceled

  predicate MayTask(from: TaskStatus, to: TaskStatus) {
    match from
    case Draft => to in {TaskStatus.Ready, TaskStatus.Canceled}
    case Ready => to in {TaskStatus.Active, TaskStatus.Canceled}
    case Active => to in {TaskStatus.Succeeded, TaskStatus.Failed, TaskStatus.Canceled}
    case Failed => to == TaskStatus.Active
    case Succeeded => false
    case Canceled => false
  }

  predicate MayRun(from: RunStatus, to: RunStatus) {
    match from
    case Queued => to in {RunStatus.Preparing, RunStatus.Pausing, RunStatus.Canceling, RunStatus.Waiting}
    case Preparing =>
      to in {RunStatus.Running, RunStatus.Waiting, RunStatus.Pausing, RunStatus.Reconciling, RunStatus.Canceling,
             RunStatus.Failed}
    case Running =>
      to in {RunStatus.Waiting, RunStatus.Pausing, RunStatus.Reconciling, RunStatus.Canceling, RunStatus.Succeeded,
             RunStatus.Failed}
    case Waiting =>
      to in {RunStatus.Preparing, RunStatus.Running, RunStatus.Pausing, RunStatus.Reconciling, RunStatus.Canceling,
             RunStatus.Failed}
    case Pausing => to in {RunStatus.Paused, RunStatus.Reconciling, RunStatus.Canceling}
    case Paused => to in {RunStatus.Reconciling, RunStatus.Canceling}
    case Reconciling =>
      to in {RunStatus.Preparing, RunStatus.Running, RunStatus.Waiting, RunStatus.Pausing, RunStatus.Paused,
             RunStatus.Canceling, RunStatus.Succeeded, RunStatus.Failed}
    case Canceling => to in {RunStatus.Canceled, RunStatus.Reconciling}
    case Succeeded => false
    case Failed => false
    case Canceled => false
  }

  predicate MayAssignment(from: AssignmentStatus, to: AssignmentStatus) {
    match from
    case Pending => to in {AssignmentStatus.Ready, AssignmentStatus.Canceled}
    case Ready => to in {AssignmentStatus.Running, AssignmentStatus.Waiting, AssignmentStatus.Canceled}
    case Running =>
      to in {AssignmentStatus.Waiting, AssignmentStatus.Verifying, AssignmentStatus.Failed, AssignmentStatus.Canceled}
    case Waiting =>
      to in {AssignmentStatus.Running, AssignmentStatus.Verifying, AssignmentStatus.Failed, AssignmentStatus.Canceled}
    case Verifying => to in {AssignmentStatus.Succeeded, AssignmentStatus.Failed, AssignmentStatus.Waiting}
    case Succeeded => false
    case Failed => false
    case Canceled => false
  }

  predicate MayAction(from: ActionStatus, to: ActionStatus) {
    match from
    case Planned =>
      to in {ActionStatus.WaitingApproval, ActionStatus.Admitted, ActionStatus.Denied, ActionStatus.Canceled}
    case WaitingApproval => to in {ActionStatus.Admitted, ActionStatus.Denied, ActionStatus.Canceled}
    case Admitted =>
      to in {ActionStatus.Executing, ActionStatus.Denied, ActionStatus.Canceled, ActionStatus.UnknownRemote}
    case Executing => to in {ActionStatus.Verifying, ActionStatus.Failed, ActionStatus.UnknownRemote}
    case Verifying => to in {ActionStatus.Succeeded, ActionStatus.Failed, ActionStatus.UnknownRemote}
    case UnknownRemote =>
      to in {ActionStatus.Executing, ActionStatus.Verifying, ActionStatus.Failed, ActionStatus.Canceled}
    case Succeeded => false
    case Failed => false
    case Denied => false
    case Canceled => false
  }

  predicate RunOver(status: RunStatus) {
    status == RunStatus.Succeeded || status == RunStatus.Failed || status == RunStatus.Canceled
  }

  predicate ActionOver(status: ActionStatus) {
    status == ActionStatus.Succeeded || status == ActionStatus.Failed
    || status == ActionStatus.Denied || status == ActionStatus.Canceled
  }

  // ---------------------------------------------------------------- entities

  datatype Criterion = Criterion(required: bool, output: bool)

  /** `_criteria`: at least one criterion must be required. */
  predicate Demanding(acceptance: seq<Criterion>) {
    exists i :: 0 <= i < |acceptance| && acceptance[i].required
  }

  /** The Task's budget carries the Task's own number. */
  datatype Task = Task(status: TaskStatus, contract: nat, configuration: nat, active: Option<nat>,
                       acceptance: seq<Criterion>)

  datatype Desired = WantRunning | WantPaused | WantCanceled

  datatype Owner = Runner | Human

  datatype Run = Run(task: nat, retry: nat, status: RunStatus, desired: Desired, owner: Owner, epoch: nat,
                     takeover: bool, lease: Fencing.Lease, contract: nat, configuration: nat)

  datatype Action = Action(status: ActionStatus, dispatched: bool, token: nat, notDelivered: bool, pinned: bool)

  datatype Grant = Grant(active: bool, expires: int, used: nat)

  datatype Attempt = Attempt(run: Run, action: Action, assignment: AssignmentStatus, grant: Grant,
                             outbox: Outbox.Delivery, lease: Fencing.Lease)

  // ---------------------------------------------------------------- the executor's side

  datatype OpStatus = Intended | Dispatched

  datatype LegacyStatus =
    | Queued | Running | WaitingInput | WaitingAuth | PendingReconcile | Succeeded | Failed | Cancelled

  /** What a trusted adapter has proved about delivery. */
  datatype Receipt = NoReceipt | PromptNotSent | CancelledBeforeSpawn

  /** The local executor's record of an attempt; `prompts` counts what the provider was really sent. */
  datatype Legacy = Legacy(op: OpStatus, status: LegacyStatus, terminated: bool, cancelRequested: bool,
                           receipt: Receipt, blank: bool, prompts: nat)

  predicate LegacyOver(status: LegacyStatus) {
    status == LegacyStatus.Succeeded || status == LegacyStatus.Failed || status == LegacyStatus.Cancelled
  }

  predicate Undelivered(legacy: Legacy) {
    legacy.op == Intended && legacy.status == LegacyStatus.Queued
  }

  predicate ConfirmedNotSent(legacy: Legacy) {
    legacy.status == LegacyStatus.Failed && legacy.terminated && legacy.receipt == PromptNotSent
  }

  predicate ConfirmedCancelled(legacy: Legacy) {
    legacy.status == LegacyStatus.Cancelled && legacy.terminated && legacy.cancelRequested
    && legacy.receipt == CancelledBeforeSpawn
  }

  /** An attempt with everything the protocol keeps about it. `calling` and `sending` are volatile:
      the submission call of this process is in progress, or its adapter holds the prompt. */
  datatype View = View(a: Attempt, r: Reservation, legacy: Option<Legacy>, calling: bool, sending: bool)

  /** The process and configuration an operation runs under. */
  datatype Env = Env(worker: nat, locked: bool, configuration: nat, now: int)

  const LEASE_SECONDS: int := 60
  const RENEW_SECONDS: int := 30
}
