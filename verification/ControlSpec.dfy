/** What each control transaction does to an attempt, in closed form, and the invariant of one
    attempt. The runtime's step-by-step methods are proved equal to these. */
module ControlSpec {
  import opened Wrappers
  import opened ControlLedger
  import opened ControlEntities
  import Fencing
  import Outbox

  // ---------------------------------------------------------------- lease ownership

  function Leased(a: Attempt, lease: Fencing.Lease): Attempt {
    a.(run := a.run.(lease := lease), action := a.action.(token := lease.token), lease := lease)
  }

  predicate LeaseAgrees(a: Attempt) {
    a.lease == a.run.lease && a.lease.holder.Some? && a.action.token == a.lease.token
  }

  /** Releasing what the run remembers and claiming the resource again. */
  function Reclaim(a: Attempt, env: Env): Result<Attempt> {
    if a.run.lease.holder.None? then Err(LeaseLost)
    else
      var row :- Fencing.Release(Some(a.lease), a.run.lease.holder.value, a.run.lease.token);
      var lease :- Fencing.Claim(Some(row), env.worker, env.now + LEASE_SECONDS, env.now);
      Ok(Leased(a, lease))
  }

  /** `_own`: a live own lease is kept, another holder's needs the instance lock, and anything
      else is released and claimed again. */
  function Own(a: Attempt, env: Env): Result<Attempt> {
    if a.run.lease.holder != Some(env.worker) then
      if env.locked then Reclaim(a, env) else Err(LeaseLost)
    else if a.run.lease.expires > env.now + RENEW_SECONDS then
      var lease :- Fencing.Check(Some(a.lease), env.worker, a.run.lease.token, env.now);
      Ok(a.(action := a.action.(token := lease.token)))
    else Reclaim(a, env)
  }

  /** With the three tokens in agreement ownership can only be refused for want of the instance
      lock or of tokens; otherwise it keeps the lease or moves all three to the next token. */
  lemma OwnExact(a: Attempt, env: Env)
    requires LeaseAgrees(a)
    ensures Own(a, env)
            == if a.lease.holder == Some(env.worker) && a.lease.expires > env.now + RENEW_SECONDS then Ok(a)
               else if a.lease.holder != Some(env.worker) && !env.locked then Err(LeaseLost)
               else if a.lease.token >= MAX_INT then Err(InvalidState)
               else Ok(Leased(a, Fencing.Lease(Some(env.worker), env.now + LEASE_SECONDS, a.lease.token + 1)))
  {
  }

  // ---------------------------------------------------------------- the invariant of one attempt

  predicate FreshStatus(run: Run) {
    match run.desired
    case WantRunning => run.status == RunStatus.Queued || run.status == RunStatus.Reconciling
    case WantPaused => run.status == RunStatus.Pausing || run.status == RunStatus.Paused
    case WantCanceled => run.status == RunStatus.Canceling
  }

  predicate SentStatus(run: Run) {
    match run.desired
    case WantRunning =>
      run.status in {RunStatus.Preparing, RunStatus.Running, RunStatus.Waiting, RunStatus.Reconciling}
    case WantPaused => run.status in {RunStatus.Pausing, RunStatus.Paused, RunStatus.Reconciling}
    case WantCanceled => run.status == RunStatus.Canceling || run.status == RunStatus.Reconciling
  }

  /** Admitted and still in the outbox: nothing outside knows of it. */
  predicate Fresh(v: View) {
    && !v.a.action.dispatched && v.a.action.status == ActionStatus.Admitted
    && v.a.outbox.status == Outbox.Pending && v.a.assignment == AssignmentStatus.Ready
    && v.a.grant.used == 0 && v.r.status == Held
    && v.legacy.None? && !v.calling && FreshStatus(v.a.run)
  }

  /** Marked as delivering: at most one submission may be under way or done. */
  predicate Sent(v: View) {
    && v.a.action.dispatched && v.a.outbox.status == Outbox.Delivering
    && v.a.assignment == AssignmentStatus.Running && SentStatus(v.a.run)
    && (v.a.action.status == ActionStatus.Executing || v.a.action.status == ActionStatus.UnknownRemote)
    && (v.r.status == Held || v.r.status == Uncertain)
    && (v.a.action.status == ActionStatus.UnknownRemote ==> v.r.status == Uncertain)
    && (v.legacy.None? ==> v.a.run.status != RunStatus.Paused)
  }

  predicate Over(v: View) {
    && ActionOver(v.a.action.status) && RunOver(v.a.run.status) && v.a.outbox.status == Outbox.Done
    && v.r.status == Settled && (v.r.actual == Some(Count(0)) || v.r.actual == Some(Count(1)))
  }

  /** Nothing was sent and nothing can be sent any more. */
  predicate Quiet(v: View) {
    && !v.sending
    && (v.legacy.None? ==> !v.calling)
    && (v.legacy.Some? ==> v.legacy.value.prompts == 0 && !Undelivered(v.legacy.value))
  }

  predicate LegacyOk(v: View) {
    v.legacy.Some? ==>
      var l := v.legacy.value;
      && v.a.action.dispatched
      && l.prompts <= 1
      && (v.sending ==> l.op == Dispatched && l.prompts == 0)
      && (l.op == Intended ==> l.prompts == 0)
      && (l.status == LegacyStatus.Queued ==> l.op == Intended)
      && (l.receipt != NoReceipt ==> l.prompts == 0 && !v.sending && l.op == Dispatched)
      && (v.a.action.notDelivered ==> l.op == Intended && v.a.run.desired == WantCanceled)
  }

  /** The invariant every transaction keeps. */
  predicate Sound(v: View) {
    && LeaseAgrees(v.a) && LegacyOk(v)
    && (v.legacy.None? ==> !v.sending && !v.a.action.notDelivered) && (v.calling ==> v.a.action.dispatched)
    && v.r.reserved == Count(1) && (v.r.status != Settled ==> v.r.actual == None)
    && (Fresh(v) || Sent(v) || Over(v))
    && (Over(v) && v.r.actual == Some(Count(0)) ==> Quiet(v))
  }

  function Prompts(v: View): nat {
    match v.legacy case None => 0 case Some(l) => l.prompts
  }

  function Charge(r: Reservation): nat {
    if r.status == Settled && r.actual == Some(Count(0)) then 0 else 1
  }

  /** The reservation always covers what was really submitted. */
  lemma ChargeCovers(v: View)
    requires Sound(v)
    ensures Prompts(v) <= Charge(v.r)
  {
  }

  /** In every sound state the three ledgers agree on whether the attempt is over. */
  lemma OverEverywhere(v: View)
    requires Sound(v)
    ensures ActionOver(v.a.action.status) <==> v.r.status == Settled
    ensures ActionOver(v.a.action.status) <==> v.a.outbox.status == Outbox.Done
    ensures ActionOver(v.a.action.status) <==> RunOver(v.a.run.status)
    ensures !ActionOver(v.a.action.status) ==> v.r.status == Held || v.r.status == Uncertain
    ensures v.a.outbox.status == Outbox.Delivering ==> v.a.action.dispatched
  {
  }

  // ---------------------------------------------------------------- transactions in closed form

  /** The attempt after a transaction, and the status its Task takes (None: unchanged). */
  datatype Effect = Effect(v: View, task: Option<TaskStatus>)

  function SettleTurns(r: Reservation, n: nat): Reservation {
    SettledAs(r, Count(n), [])
  }

  function TaskAfter(status: RunStatus): TaskStatus {
    match status
    case Succeeded => TaskStatus.Succeeded
    case Canceled => TaskStatus.Canceled
    case _ => TaskStatus.Failed
  }

  function Ended(v: View, action: ActionStatus, assignment: AssignmentStatus, run: RunStatus, turns: nat): Effect {
    Effect(v.(a := v.a.(run := v.a.run.(status := run), action := v.a.action.(status := action),
                        assignment := assignment, outbox := v.a.outbox.(status := Outbox.Done)),
              r := SettleTurns(v.r, turns)),
           Some(TaskAfter(run)))
  }

  /** `_dispatch_guard`: everything that must still hold when the action leaves the outbox. */
  function GuardRefusal(a: Attempt, task: Task, env: Env, admitted: bool): Option<Error> {
    if a.run.desired != WantRunning || a.run.owner != Runner then Some(Forbidden)
    else if a.run.configuration != env.configuration then Some(RevisionConflict)
    else if task.contract != a.run.contract then Some(RevisionConflict)
    else if a.run.lease.holder != Some(env.worker) || a.action.token != a.run.lease.token then Some(LeaseLost)
    else if Fencing.Check(Some(a.lease), env.worker, a.run.lease.token, env.now).Err? then Some(LeaseLost)
    else if !a.grant.active || a.grant.expires <= env.now then Some(AuthRequired)
    else if a.grant.used >= 1 && !admitted then Some(AuthRequired)
    else None
  }

  /** The dispatch transaction: grant used, outbox marked, action executing; the call is next. */
  function Dispatch(v: View): View {
    var status := if v.a.run.status in {RunStatus.Queued, RunStatus.Reconciling, RunStatus.Waiting}
                  then RunStatus.Preparing else v.a.run.status;
    v.(a := v.a.(run := v.a.run.(status := status),
                 action := v.a.action.(status := ActionStatus.Executing, dispatched := true),
                 grant := v.a.grant.(used := v.a.grant.used + 1),
                 outbox := v.a.outbox.(status := Outbox.Delivering),
                 assignment := AssignmentStatus.Running),
       calling := true)
  }

  function Deny(v: View): Effect {
    Ended(v, ActionStatus.Denied, AssignmentStatus.Canceled, RunStatus.Failed, 0)
  }

  function NotApplied(v: View): Effect {
    Ended(v, ActionStatus.Failed, AssignmentStatus.Failed,
          if v.a.run.desired == WantCanceled then RunStatus.Canceled else RunStatus.Failed, 0)
  }

  function CancelNotApplied(v: View): Effect {
    Ended(v, ActionStatus.Canceled, AssignmentStatus.Canceled, RunStatus.Canceled, 0)
  }

  /** `_transfer_if_requested`: a confirmed pause hands a requested takeover to the human. */
  function Transferred(run: Run): Run {
    if run.takeover && run.owner != Human then run.(owner := Human, epoch := run.epoch + 1) else run
  }

  function ConfirmPause(v: View): Effect {
    Effect(v.(a := v.a.(run := Transferred(v.a.run.(status := RunStatus.Paused)))), None)
  }

  function UndeliveredControl(v: View): Effect {
    if v.a.run.desired == WantPaused then ConfirmPause(v)
    else CancelNotApplied(v)
  }

  function Unknown(v: View): Effect {
    Effect(v.(a := v.a.(action := v.a.action.(status := ActionStatus.UnknownRemote),
                        run := v.a.run.(status := RunStatus.Reconciling)),
              r := if v.a.action.status != ActionStatus.UnknownRemote && v.r.status == Held
                   then v.r.(status := Uncertain, revision := v.r.revision + 1) else v.r),
           None)
  }

  function Observed(v: View): Effect
    requires v.legacy.Some?
  {
    var status := match v.legacy.value.status
                  case WaitingInput => RunStatus.Waiting
                  case WaitingAuth => RunStatus.Waiting
                  case _ => RunStatus.Running;
    Effect(v.(a := v.a.(action := v.a.action.(status := ActionStatus.Executing),
                        run := v.a.run.(status := status))), None)
  }

  /** The acceptance verdict of a finished execution: every required criterion holds. */
  predicate Accepted(a: Attempt, task: Task, legacy: Legacy, env: Env) {
    forall i :: 0 <= i < |task.acceptance| && task.acceptance[i].required ==>
      && legacy.status == LegacyStatus.Succeeded && a.run.configuration == env.configuration
      && a.run.contract == task.contract && (task.acceptance[i].output ==> !legacy.blank)
  }

  function Complete(v: View, task: Task, env: Env): Effect
    requires v.legacy.Some?
  {
    if v.a.run.desired == WantCanceled then
      Ended(v, ActionStatus.Succeeded, AssignmentStatus.Canceled, RunStatus.Canceled, 1)
    else if Accepted(v.a, task, v.legacy.value, env) then
      Ended(v, ActionStatus.Succeeded, AssignmentStatus.Succeeded, RunStatus.Succeeded, 1)
    else Ended(v, ActionStatus.Succeeded, AssignmentStatus.Failed, RunStatus.Failed, 1)
  }

  /** The last transaction of `_observe`, after ownership: what the local record now proves.
      An illegal edge refuses the whole transaction. */
  function Conclude(v: View, task: Task, env: Env): Result<Effect>
    requires v.legacy.Some?
  {
    var l := v.legacy.value;
    if LegacyOver(l.status) && l.terminated then
      if ConfirmedCancelled(l) then
        if v.a.run.status == RunStatus.Canceling then Ok(CancelNotApplied(v)) else Err(InvalidArgument)
      else if ConfirmedNotSent(l) then
        if v.a.run.desired != WantCanceled && v.a.run.status == RunStatus.Paused then Err(InvalidArgument)
        else Ok(NotApplied(v))
      else if v.a.action.notDelivered then
        if v.a.run.status == RunStatus.Canceling then Ok(CancelNotApplied(v)) else Err(InvalidArgument)
      else if v.a.run.desired == WantPaused then Ok(ConfirmPause(v))
      else Ok(Complete(v, task, env))
    else if l.status == LegacyStatus.PendingReconcile then Ok(Unknown(v))
    else if v.a.run.desired == WantRunning then Ok(Observed(v))
    else Ok(Effect(v, None))
  }

  // ---------------------------------------------------------------- each keeps the invariant

  lemma OwnKeeps(v: View, env: Env)
    requires Sound(v) && Own(v.a, env).Ok?
    ensures Sound(v.(a := Own(v.a, env).value))
    ensures Fresh(v) ==> Fresh(v.(a := Own(v.a, env).value))
    ensures Sent(v) ==> Sent(v.(a := Own(v.a, env).value))
  {
    OwnExact(v.a, env);
  }

  /** After `_own` the run's lease, the stored lease and the Action's token agree, and are live
      for this worker. */
  lemma OwnAgrees(a: Attempt, env: Env)
    requires LeaseAgrees(a) && Own(a, env).Ok?
    ensures var b := Own(a, env).value;
            LeaseAgrees(b) && Fencing.Check(Some(b.lease), env.worker, b.action.token, env.now).Ok?
            && a.lease.token <= b.lease.token
  {
  }

  /** Owning again at once changes nothing. */
  lemma OwnTwice(a: Attempt, env: Env)
    requires LeaseAgrees(a) && Own(a, env).Ok?
    ensures Own(Own(a, env).value, env) == Own(a, env)
  {
    OwnExact(a, env);
    OwnExact(Own(a, env).value, env);
  }

  lemma DispatchKeeps(v: View, task: Task, env: Env)
    requires Sound(v) && Fresh(v) && GuardRefusal(v.a, task, env, false) == None
    ensures Sound(Dispatch(v)) && Sent(Dispatch(v))
  {
  }

  lemma DenyKeeps(v: View)
    requires Sound(v) && Fresh(v)
    ensures Sound(Deny(v).v) && Over(Deny(v).v)
  {
  }

  lemma NotAppliedKeeps(v: View)
    requires Sound(v) && Sent(v)
    requires match v.legacy case None => !v.calling case Some(l) => ConfirmedNotSent(l)
    ensures Sound(NotApplied(v).v) && Over(NotApplied(v).v)
  {
  }

  lemma CancelNotAppliedKeeps(v: View)
    requires Sound(v) && Sent(v) && v.legacy.Some? && LegacyOver(v.legacy.value.status)
    requires ConfirmedCancelled(v.legacy.value) || v.a.action.notDelivered
    ensures Sound(CancelNotApplied(v).v) && Over(CancelNotApplied(v).v)
  {
  }

  lemma UndeliveredKeeps(v: View)
    requires Sound(v) && Fresh(v) && v.a.run.desired != WantRunning
    ensures Sound(UndeliveredControl(v).v)
    ensures if v.a.run.desired == WantPaused then Fresh(UndeliveredControl(v).v) else Over(UndeliveredControl(v).v)
  {
  }

  lemma ConfirmPauseKeeps(v: View)
    requires Sound(v) && Sent(v) && v.a.run.desired == WantPaused && v.legacy.Some?
    ensures Sound(ConfirmPause(v).v) && !Over(ConfirmPause(v).v)
  {
  }

  lemma UnknownKeeps(v: View)
    requires Sound(v) && Sent(v)
    ensures Sound(Unknown(v).v) && !Over(Unknown(v).v)
  {
  }

  lemma ObservedKeeps(v: View)
    requires Sound(v) && Sent(v) && v.legacy.Some? && v.a.run.desired == WantRunning
    ensures Sound(Observed(v).v) && !Over(Observed(v).v)
  {
  }

  lemma CompleteKeeps(v: View, task: Task, env: Env)
    requires Sound(v) && Sent(v) && v.legacy.Some?
    ensures Sound(Complete(v, task, env).v) && Over(Complete(v, task, env).v)
  {
  }

  lemma ConcludeKeeps(v: View, task: Task, env: Env)
    requires Sound(v) && Sent(v) && v.legacy.Some? && Conclude(v, task, env).Ok?
    ensures Sound(Conclude(v, task, env).value.v)
    ensures Conclude(v, task, env).value.task.Some? <==> Over(Conclude(v, task, env).value.v)
  {
    var l := v.legacy.value;
    if LegacyOver(l.status) && l.terminated {
      if ConfirmedCancelled(l) || (v.a.action.notDelivered && !ConfirmedNotSent(l)) {
        CancelNotAppliedKeeps(v);
      } else if ConfirmedNotSent(l) {
        NotAppliedKeeps(v);
      } else if v.a.run.desired == WantPaused {
        ConfirmPauseKeeps(v);
      } else {
        CompleteKeeps(v, task, env);
      }
    } else if l.status == LegacyStatus.PendingReconcile {
      UnknownKeeps(v);
    } else if v.a.run.desired == WantRunning {
      ObservedKeeps(v);
    }
  }

  // ---------------------------------------------------------------- commands on one run

  function Reran(v: View, run: Run): View {
    v.(a := v.a.(run := run))
  }

  function Pause(v: View): Result<View> {
    if RunOver(v.a.run.status) || v.a.run.desired == WantCanceled then Err(InvalidArgument)
    else Ok(Reran(v, v.a.run.(desired := WantPaused,
                              status := if v.a.run.status == RunStatus.Paused then RunStatus.Paused
                                        else RunStatus.Pausing)))
  }

  function Cancel(v: View): Result<View> {
    if RunOver(v.a.run.status) then Err(InvalidArgument)
    else Ok(Reran(v, v.a.run.(desired := WantCanceled, status := RunStatus.Canceling)))
  }

  function Resume(v: View, env: Env): Result<View> {
    if v.a.run.desired != WantPaused || v.a.run.status != RunStatus.Paused || v.a.run.owner != Runner then
      Err(InvalidArgument)
    else if v.a.run.configuration != env.configuration then Err(RevisionConflict)
    else Ok(Reran(v, v.a.run.(desired := WantRunning, status := RunStatus.Reconciling)))
  }

  function Takeover(v: View): Result<View> {
    var paused :- Pause(v);
    Ok(Reran(paused, paused.a.run.(takeover := true)))
  }

  function ReturnControl(v: View, env: Env): Result<View> {
    if v.a.run.owner != Human || v.a.run.status != RunStatus.Paused then Err(InvalidArgument)
    else if v.a.run.configuration != env.configuration then Err(RevisionConflict)
    else Ok(Reran(v, v.a.run.(owner := Runner, epoch := v.a.run.epoch + 1, takeover := false,
                              desired := WantRunning, status := RunStatus.Reconciling)))
  }

  datatype RunCommand = PauseRun | CancelRun | ResumeRun | TakeoverRun | ReturnRun | RevokeGrant

  function Command(v: View, command: RunCommand, env: Env): Result<View> {
    match command
    case PauseRun => Pause(v)
    case CancelRun => Cancel(v)
    case ResumeRun => Resume(v, env)
    case TakeoverRun => Takeover(v)
    case ReturnRun => ReturnControl(v, env)
    case RevokeGrant => Ok(v.(a := v.a.(grant := v.a.grant.(active := false))))
  }

  lemma CommandKeeps(v: View, command: RunCommand, env: Env)
    requires Sound(v) && Command(v, command, env).Ok?
    ensures Sound(Command(v, command, env).value)
    ensures Over(Command(v, command, env).value) <==> Over(v)
  {
  }

  // ---------------------------------------------------------------- the executor and its adapter

  /** What happens outside the control transactions. Receipts come only from an adapter that still
      holds the prompt; everything else about a record may be reported at any time. */
  datatype Outside =
    | EndCall
    | CommitIntent
    | StartDispatch
    | SendPrompt
    | FailSend(receipt: Receipt)
    | Report(status: LegacyStatus, terminated: bool, blank: bool)
    | RequestCancel

  function Failing(l: Legacy, receipt: Receipt): Legacy {
    match receipt
    case NoReceipt => l.(status := LegacyStatus.PendingReconcile)
    case PromptNotSent => l.(status := LegacyStatus.Failed, terminated := true, receipt := PromptNotSent)
    case CancelledBeforeSpawn =>
      if l.cancelRequested then l.(status := LegacyStatus.Cancelled, terminated := true, receipt := CancelledBeforeSpawn)
      else l.(status := LegacyStatus.PendingReconcile)
  }

  function Outer(v: View, event: Outside, task: Task, env: Env): View {
    match event
    case EndCall => v.(calling := false)
    case CommitIntent =>
      if v.calling && v.legacy.None? then
        v.(legacy := Some(Legacy(Intended, LegacyStatus.Queued, false, false, NoReceipt, true, 0)))
      else v
    case StartDispatch =>
      if v.legacy.Some? && Undelivered(v.legacy.value) && GuardRefusal(v.a, task, env, true) == None then
        v.(legacy := Some(v.legacy.value.(op := Dispatched, status := LegacyStatus.Running)), sending := true)
      else v
    case SendPrompt =>
      if v.sending && v.legacy.Some? then
        v.(legacy := Some(v.legacy.value.(prompts := v.legacy.value.prompts + 1)), sending := false)
      else v
    case FailSend(receipt) =>
      if v.sending && v.legacy.Some? then v.(legacy := Some(Failing(v.legacy.value, receipt)), sending := false)
      else v
    case Report(status, terminated, blank) =>
      if v.legacy.Some? && status != LegacyStatus.Queued then
        v.(legacy := Some(v.legacy.value.(status := status, terminated := terminated, blank := blank)))
      else v
    case RequestCancel =>
      if v.legacy.Some? then
        v.(legacy := Some(if Undelivered(v.legacy.value)
                          then v.legacy.value.(cancelRequested := true, status := LegacyStatus.Cancelled, terminated := true)
                          else v.legacy.value.(cancelRequested := true)))
      else v
  }

  lemma OuterKeeps(v: View, event: Outside, task: Task, env: Env)
    requires Sound(v)
    ensures Sound(Outer(v, event, task, env))
    ensures Over(Outer(v, event, task, env)) <==> Over(v)
    ensures Prompts(Outer(v, event, task, env)) == Prompts(v) + if event == SendPrompt && v.sending then 1 else 0
  {
  }

  /** A crash ends this process's call and takes the prompt away from its adapter. */
  lemma CrashKeeps(v: View)
    requires Sound(v)
    ensures Sound(v.(calling := false, sending := false))
    ensures Over(v.(calling := false, sending := false)) <==> Over(v)
  {
  }

  // ---------------------------------------------------------------- a cancellation that cannot settle

  /** A proven cancellation settles exactly when the run is still marked CANCELING. */
  lemma ConfirmedCancelSettles(v: View, task: Task, env: Env)
    requires Sound(v) && Sent(v) && v.legacy.Some? && ConfirmedCancelled(v.legacy.value)
    ensures Conclude(v, task, env).Ok? <==> v.a.run.status == RunStatus.Canceling
    ensures Conclude(v, task, env).Err? ==>
              v.a.run.desired == WantCanceled ==> v.a.run.status == RunStatus.Reconciling
  {
  }

  /** The record is finished and proves that no prompt was sent, in a status the transaction has no legal
      edge from: a cancellation needs CANCELING, and a failure cannot be recorded while PAUSED. */
  predicate Stuck(v: View) {
    && v.legacy.Some?
    && var l := v.legacy.value;
       && LegacyOver(l.status) && l.terminated
       && (((ConfirmedCancelled(l) || (v.a.action.notDelivered && !ConfirmedNotSent(l)))
            && v.a.run.status != RunStatus.Canceling)
           || (ConfirmedNotSent(l) && !ConfirmedCancelled(l) && v.a.run.status == RunStatus.Paused))
  }

  /** Exactly the stuck attempts refuse their conclusion. Only a refund is ever refused, never a turn that
      was used; and a cancel command always makes the refused conclusion possible. */
  lemma RefusedExactly(v: View, task: Task, env: Env, task2: Task, env2: Env)
    requires Sound(v) && Sent(v) && v.legacy.Some?
    ensures Conclude(v, task, env).Err? <==> Stuck(v)
    ensures Stuck(v) ==> Conclude(v, task, env) == Err(InvalidArgument) && Prompts(v) == 0
    ensures Stuck(v) ==> Cancel(v).Ok? && Cancel(v).value.legacy == v.legacy && Conclude(Cancel(v).value, task2, env2).Ok?
  {
  }

  /** A cancelled run whose record first looks lost and is then proved never sent. */
  function LostThenCancelled(v: View, task: Task, env: Env): Option<View> {
    var lost := Outer(v, Report(LegacyStatus.PendingReconcile, false, true), task, env);
    if lost.legacy.None? || Conclude(lost, task, env).Err? then None
    else
      var asked := Outer(Conclude(lost, task, env).value.v, RequestCancel, task, env);
      Some(Outer(asked, FailSend(CancelledBeforeSpawn), task, env))
  }

  /** Losing sight of the executor while a cancellation is under way moves the run back to
      RECONCILING; the proof that nothing was sent, when it then arrives, can never be recorded:
      RECONCILING has no edge to CANCELED. Only another cancel command unblocks the attempt. */
  lemma CancellationCanStick(v: View, task: Task, env: Env, task2: Task, env2: Env)
    requires Sound(v) && Sent(v) && v.sending && v.a.run.desired == WantCanceled
    ensures var stuck := LostThenCancelled(v, task, env);
            && stuck.Some? && Sound(stuck.value) && stuck.value.legacy.Some?
            && ConfirmedCancelled(stuck.value.legacy.value)
            && Conclude(stuck.value, task2, env2) == Err(InvalidArgument)
            && Cancel(stuck.value).Ok? && Conclude(Cancel(stuck.value).value, task2, env2).Ok?
  {
    LostFromSight(v, task, env);
    var lost := Outer(v, Report(LegacyStatus.PendingReconcile, false, true), task, env);
    NeverSentAfterAll(Conclude(lost, task, env).value.v, task, env);
    RefusedExactly(LostThenCancelled(v, task, env).value, task2, env2, task2, env2);
  }

  /** A prompt is in its adapter's hands, and the run is RECONCILING. */
  predicate OutOfSight(v: View) {
    Sound(v) && Sent(v) && v.sending && v.legacy.Some? && v.a.run.status == RunStatus.Reconciling
  }

  lemma LostFromSight(v: View, task: Task, env: Env)
    requires Sound(v) && Sent(v) && v.sending && v.a.run.desired == WantCanceled
    ensures var lost := Outer(v, Report(LegacyStatus.PendingReconcile, false, true), task, env);
            lost.legacy.Some? && Conclude(lost, task, env).Ok? && OutOfSight(Conclude(lost, task, env).value.v)
  {
    var lost := Outer(v, Report(LegacyStatus.PendingReconcile, false, true), task, env);
    OuterKeeps(v, Report(LegacyStatus.PendingReconcile, false, true), task, env);
    UnknownKeeps(lost);
  }

  lemma NeverSentAfterAll(v: View, task: Task, env: Env)
    requires OutOfSight(v)
    ensures var w := Outer(Outer(v, RequestCancel, task, env), FailSend(CancelledBeforeSpawn), task, env);
            Sound(w) && Sent(w) && Stuck(w) && ConfirmedCancelled(w.legacy.value)
  {
    OuterKeeps(v, RequestCancel, task, env);
    OuterKeeps(Outer(v, RequestCancel, task, env), FailSend(CancelledBeforeSpawn), task, env);
  }

  /** Such an attempt exists: one that was dispatched and then cancelled before its adapter answered. */
  lemma StickyAttemptExists()
    ensures exists v: View :: Sound(v) && Sent(v) && v.sending && v.a.run.desired == WantCanceled
  {
    var lease := Fencing.Lease(Some(0), 60, 1);
    var run := Run(0, 1, RunStatus.Canceling, WantCanceled, Runner, 1, false, lease, 1, 0);
    var a := Attempt(run, Action(ActionStatus.Executing, true, 1, false, true), AssignmentStatus.Running,
                     Grant(true, 100, 1), Outbox.Delivery(0, Outbox.Delivering), lease);
    var l := Legacy(Dispatched, LegacyStatus.Running, false, false, NoReceipt, true, 0);
    var v := View(a, Holding(0, 0, 0), Some(l), false, true);
    assert Sound(v) && Sent(v);
  }
}
