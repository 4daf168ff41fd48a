/** What the control runtime's commands do, exactly when they are accepted, and what becomes of an attempt that
    ends without ever having been observed. */
module ControlCommands {
  import opened Wrappers
  import opened ControlLedger
  import opened ControlEntities
  import opened ControlSpec
  import opened ControlRuns
  import opened ControlOutcomes
  import opened ControlPermits
  import opened LedgerOutcomes
  import Fencing
  import Outbox

  // ---------------------------------------------------------------- commands on a run

  /** When a command may be given. */
  predicate Accepts(run: Run, command: RunCommand, env: Env) {
    match command
    case PauseRun => !RunOver(run.status) && run.desired != WantCanceled
    case TakeoverRun => !RunOver(run.status) && run.desired != WantCanceled
    case CancelRun => !RunOver(run.status)
    case ResumeRun =>
      run.status == RunStatus.Paused && run.desired == WantPaused && run.owner == Runner
      && run.configuration == env.configuration
    case ReturnRun => run.status == RunStatus.Paused && run.owner == Human && run.configuration == env.configuration
    case RevokeGrant => true
  }

  /** What it asks for. */
  predicate Asks(a: Run, command: RunCommand, b: Run) {
    match command
    case PauseRun => b.desired == WantPaused && b.owner == a.owner && b.takeover == a.takeover && b.epoch == a.epoch
    case TakeoverRun => b.desired == WantPaused && b.owner == a.owner && b.takeover && b.epoch == a.epoch
    case CancelRun => b.desired == WantCanceled && b.owner == a.owner && b.takeover == a.takeover && b.epoch == a.epoch
    case ResumeRun => b.desired == WantRunning && b.owner == Runner && b.takeover == a.takeover && b.epoch == a.epoch
    case ReturnRun => b.desired == WantRunning && b.owner == Runner && !b.takeover && b.epoch == a.epoch + 1
    case RevokeGrant => b == a
  }

  /** The status that shows a wish which is not fulfilled yet. */
  predicate Shows(before: RunStatus, desired: Desired, status: RunStatus) {
    match desired
    case WantRunning => status == RunStatus.Reconciling
    case WantPaused => status == (if before == RunStatus.Paused then RunStatus.Paused else RunStatus.Pausing)
    case WantCanceled => status == RunStatus.Canceling
  }

  /** A command is accepted exactly when it may be given, asks for exactly its change and touches nothing else of
      the attempt; a revocation takes the grant and nothing else. */
  lemma CommandExactly(v: View, command: RunCommand, env: Env)
    ensures var r := ControlSpec.Command(v, command, env);
            && (r.Ok? <==> Accepts(v.a.run, command, env))
            && (r.Ok? ==>
                  var a, b := v.a, r.value.a;
                  && r.value.r == v.r && r.value.legacy == v.legacy && r.value.calling == v.calling
                  && r.value.sending == v.sending
                  && b.action == a.action && b.assignment == a.assignment && b.outbox == a.outbox && b.lease == a.lease
                  && b.grant == (if command == RevokeGrant then a.grant.(active := false) else a.grant)
                  && Asks(a.run, command, b.run)
                  && (command != RevokeGrant ==> Shows(a.run.status, b.run.desired, b.run.status))
                  && b.run.task == a.run.task && b.run.retry == a.run.retry && b.run.lease == a.run.lease
                  && b.run.contract == a.run.contract && b.run.configuration == a.run.configuration)
  {
  }

  /** A confirmed pause hands the run over exactly if a takeover was asked for and it is not the human's yet. */
  lemma PauseHandsOver(v: View)
    ensures var a, b := v.a.run, ConfirmPause(v).v.a.run;
            && b.status == RunStatus.Paused && b.desired == a.desired && b.takeover == a.takeover
            && b.owner == (if a.takeover then Human else a.owner)
            && b.epoch == (if a.takeover && a.owner != Human then a.epoch + 1 else a.epoch)
            && ConfirmPause(v).v.r == v.r && ConfirmPause(v).v.a.action == v.a.action
  {
  }

  // ---------------------------------------------------------------- a dispatch uses its grant once

  /** The dispatch transaction uses the grant, marks the Action and hands over the outbox row; nothing is charged. */
  lemma DispatchUses(v: View)
    ensures var a, b := v.a, Dispatch(v).a;
            && b.grant == a.grant.(used := a.grant.used + 1) && b.action.dispatched
            && b.action.status == ActionStatus.Executing && b.outbox.status == Outbox.Delivering
            && b.outbox.payload == a.outbox.payload && b.action.token == a.action.token
            && b.assignment == AssignmentStatus.Running && b.run.desired == a.run.desired
            && Dispatch(v).r == v.r && Dispatch(v).calling
  {
  }

  // ---------------------------------------------------------------- attempts that end unobserved

  /** The attempt is over with nothing charged, and its Task is told how. */
  predicate EndsUnsent(e: Effect, action: ActionStatus, run: RunStatus, task: TaskStatus) {
    && e.task == Some(task) && SameEnd(e.v.a.run.status, task) && e.v.a.run.status == run
    && e.v.a.action.status == action && e.v.a.outbox.status == Outbox.Done
    && e.v.r.status == Settled && e.v.r.actual == Some(Count(0))
  }

  /** A denied dispatch fails; an intent that never came to be fails, or is cancelled if the run was; an intent
      still in the outbox is cancelled on request. None of them costs a turn. */
  lemma UnsentExactly(v: View)
    ensures EndsUnsent(Deny(v), ActionStatus.Denied, RunStatus.Failed, TaskStatus.Failed)
    ensures v.a.run.desired != WantCanceled ==>
              EndsUnsent(NotApplied(v), ActionStatus.Failed, RunStatus.Failed, TaskStatus.Failed)
    ensures v.a.run.desired == WantCanceled ==>
              EndsUnsent(NotApplied(v), ActionStatus.Failed, RunStatus.Canceled, TaskStatus.Canceled)
    ensures v.a.run.desired == WantCanceled ==>
              EndsUnsent(UndeliveredControl(v), ActionStatus.Canceled, RunStatus.Canceled, TaskStatus.Canceled)
    ensures v.a.run.desired == WantPaused ==>
              UndeliveredControl(v).task == None && UndeliveredControl(v).v.a.run.status == RunStatus.Paused
  {
  }

  /** The tables after an attempt ended with nothing sent: no turn charged, the outbox row done, its Task told. */
  predicate EndedUnsent(s: State, n: nat, next: State, verdict: TaskStatus) {
    && Told(s, n, next, Some(verdict)) && n in next.ledger.reservations
    && next.ledger.reservations[n].status == Settled && next.ledger.reservations[n].actual == Some(Count(0))
    && next.attempts[n].outbox.status == Outbox.Done
  }

  lemma EffectEnds(s: State, n: nat, e: Effect, action: ActionStatus, run: RunStatus, task: TaskStatus, next: State)
    requires EndsUnsent(e, action, run, task) && next == PutEffect(s, n, e)
    requires n in s.attempts && s.attempts[n].run.task in s.tasks && e.v.a.run.task == s.attempts[n].run.task
    ensures EndedUnsent(s, n, next, task) && next.attempts[n].action.status == action
  {
    EffectTold(s, n, e, next);
  }

  lemma DenialStored(s: State, n: nat, env: Env)
    requires MayDispatch(s, n) && GuardRefusal(s.attempts[n], TaskOf(s, n), env, false) != None
    ensures Next(s, DispatchStep(n), env) == PutEffect(s, n, Deny(ViewOf(s, n)))
  {
  }

  lemma DenialEnds(s: State, n: nat, v: View, next: State)
    requires n in s.attempts && s.attempts[n].run.task in s.tasks && v.a.run.task == s.attempts[n].run.task
    requires next == PutEffect(s, n, Deny(v))
    ensures EndedUnsent(s, n, next, TaskStatus.Failed) && next.attempts[n].action.status == ActionStatus.Denied
  {
    UnsentExactly(v);
    EffectEnds(s, n, Deny(v), ActionStatus.Denied, RunStatus.Failed, TaskStatus.Failed, next);
  }

  /** A dispatch that is not permitted is denied: the attempt fails and costs nothing. */
  lemma DeniedExactly(s: State, n: nat, env: Env, next: State)
    requires AttemptsSound(s) && MayDispatch(s, n) && !Permitted(s.attempts[n], TaskOf(s, n), env)
    requires next == Next(s, DispatchStep(n), env)
    ensures EndedUnsent(s, n, next, TaskStatus.Failed) && next.attempts[n].action.status == ActionStatus.Denied
  {
    assert Sound(ViewOf(s, n));
    PermittedExactly(s.attempts[n], TaskOf(s, n), env, false);
    DenialStored(s, n, env);
    DenialEnds(s, n, ViewOf(s, n), next);
  }

  lemma NotAppliedTask(v: View)
    ensures NotApplied(v).v.a.run.task == v.a.run.task && UndeliveredControl(v).v.a.run.task == v.a.run.task
  {
  }

  lemma OwnedWishes(s: State, n: nat, env: Env)
    requires AttemptsSound(s) && Known(s, n) && Owned(s, n, env).Ok?
    ensures var v := Owned(s, n, env).value;
            v.a.run.desired == s.attempts[n].run.desired && v.a.run.task == s.attempts[n].run.task
  {
    assert Sound(ViewOf(s, n));
    OwnFrame(s.attempts[n], env);
  }

  lemma AbsentStored(s: State, n: nat, env: Env)
    requires IntentAbsent(s, n) && Owned(s, n, env).Ok?
    ensures Next(s, AbsentIntent(n), env) == PutEffect(s, n, NotApplied(Owned(s, n, env).value))
  {
  }

  lemma NotAppliedEnds(s: State, n: nat, v: View, next: State)
    requires n in s.attempts && s.attempts[n].run.task in s.tasks && v.a.run.task == s.attempts[n].run.task
    requires next == PutEffect(s, n, NotApplied(v))
    ensures EndedUnsent(s, n, next, if v.a.run.desired == WantCanceled then TaskStatus.Canceled else TaskStatus.Failed)
  {
    UnsentExactly(v);
    NotAppliedTask(v);
    if v.a.run.desired == WantCanceled {
      EffectEnds(s, n, NotApplied(v), ActionStatus.Failed, RunStatus.Canceled, TaskStatus.Canceled, next);
    } else {
      EffectEnds(s, n, NotApplied(v), ActionStatus.Failed, RunStatus.Failed, TaskStatus.Failed, next);
    }
  }

  /** A dispatched intent that is proven absent fails, or is cancelled if that was wanted, and costs nothing. */
  lemma AbsentExactly(s: State, n: nat, env: Env, next: State)
    requires AttemptsSound(s) && IntentAbsent(s, n) && Owned(s, n, env).Ok? && next == Next(s, AbsentIntent(n), env)
    ensures EndedUnsent(s, n, next, if s.attempts[n].run.desired == WantCanceled then TaskStatus.Canceled else TaskStatus.Failed)
  {
    OwnedWishes(s, n, env);
    AbsentStored(s, n, env);
    NotAppliedEnds(s, n, Owned(s, n, env).value, next);
  }

  lemma UndeliveredStored(s: State, n: nat, env: Env)
    requires InOutbox(s, n)
    ensures Next(s, UndeliveredStep(n), env)
         == if s.attempts[n].run.desired == WantRunning then s else PutEffect(s, n, UndeliveredControl(ViewOf(s, n)))
  {
  }

  lemma UndeliveredEnds(s: State, n: nat, v: View, next: State)
    requires n in s.attempts && s.attempts[n].run.task in s.tasks && v.a == s.attempts[n]
    requires next == PutEffect(s, n, UndeliveredControl(v))
    ensures v.a.run.desired == WantCanceled ==> EndedUnsent(s, n, next, TaskStatus.Canceled)
    ensures v.a.run.desired == WantPaused ==> Told(s, n, next, None) && next.attempts[n].run.status == RunStatus.Paused
  {
    NotAppliedTask(v);
    UnsentExactly(v);
    if v.a.run.desired == WantCanceled {
      EffectEnds(s, n, UndeliveredControl(v), ActionStatus.Canceled, RunStatus.Canceled, TaskStatus.Canceled, next);
    } else if v.a.run.desired == WantPaused {
      EffectTold(s, n, UndeliveredControl(v), next);
    }
  }

  /** A run that is not wanted while its Action is still in the outbox is cancelled at no cost, or paused there; a
      wanted one is left alone. */
  lemma UndeliveredExactly(s: State, n: nat, env: Env, next: State)
    requires InOutbox(s, n) && next == Next(s, UndeliveredStep(n), env)
    ensures s.attempts[n].run.desired == WantCanceled ==> EndedUnsent(s, n, next, TaskStatus.Canceled)
    ensures s.attempts[n].run.desired == WantPaused ==>
              Told(s, n, next, None) && next.attempts[n].run.status == RunStatus.Paused
    ensures s.attempts[n].run.desired == WantRunning ==> next == s
  {
    UndeliveredStored(s, n, env);
    if s.attempts[n].run.desired != WantRunning {
      UndeliveredEnds(s, n, ViewOf(s, n), next);
    }
  }

  lemma PauseStored(s: State, n: nat, env: Env)
    requires Watched(s, n) && Undelivered(s.legacy[n]) && s.attempts[n].run.desired == WantPaused && Owned(s, n, env).Ok?
    ensures Next(s, PauseObserved(n), env) == PutEffect(s, n, ConfirmPause(Owned(s, n, env).value))
  {
  }

  lemma PauseEnds(s: State, n: nat, v: View, next: State)
    requires n in s.attempts && s.attempts[n].run.task in s.tasks && v.a.run.task == s.attempts[n].run.task
    requires next == PutEffect(s, n, ConfirmPause(v))
    ensures Told(s, n, next, None) && next.attempts[n].run.status == RunStatus.Paused
  {
    EffectTold(s, n, ConfirmPause(v), next);
  }

  /** An intent the executor has stored and not started is paused at once on a wanted pause. */
  lemma StoredIsPaused(s: State, n: nat, env: Env, next: State)
    requires AttemptsSound(s) && Watched(s, n) && Undelivered(s.legacy[n]) && s.attempts[n].run.desired == WantPaused
    requires Owned(s, n, env).Ok? && next == Next(s, PauseObserved(n), env)
    ensures Told(s, n, next, None) && next.attempts[n].run.status == RunStatus.Paused
  {
    OwnedWishes(s, n, env);
    PauseStored(s, n, env);
    PauseEnds(s, n, Owned(s, n, env).value, next);
  }

  lemma FlagStored(s: State, n: nat, env: Env)
    ensures Next(s, MarkNotDelivered(n), env)
         == if Watched(s, n) && Undelivered(s.legacy[n]) && s.attempts[n].run.desired == WantCanceled
            then Put(s, n, ViewOf(s, n).(a := Flagged(s.attempts[n]))) else s
  {
  }

  /** It is flagged as not delivered exactly on a wanted cancellation, and nothing else changes. */
  lemma FlaggedExactly(s: State, n: nat, env: Env, next: State)
    requires n in s.attempts && next == Next(s, MarkNotDelivered(n), env)
    ensures n in next.attempts && next.tasks == s.tasks
    ensures next.attempts[n]
         == s.attempts[n].(action := s.attempts[n].action.(notDelivered := next.attempts[n].action.notDelivered))
    ensures next.attempts[n].action.notDelivered
        <==> s.attempts[n].action.notDelivered
             || (Live(s, n) && n in s.legacy && s.legacy[n].op == Intended && s.legacy[n].status == LegacyStatus.Queued
                 && s.attempts[n].run.desired == WantCanceled)
  {
    FlagStored(s, n, env);
  }

  // ---------------------------------------------------------------- starting work

  /** A first start needs a READY Task, a retry its FAILED one and the very attempt that failed last. */
  predicate MayStart(s: State, q: Request) {
    && q.task in s.tasks
    && (if q.previous.None? then s.tasks[q.task].status == TaskStatus.Ready
        else s.tasks[q.task].status == TaskStatus.Failed && s.tasks[q.task].active == q.previous
             && q.previous.value in s.attempts && s.attempts[q.previous.value].run.task == q.task
             && s.attempts[q.previous.value].run.status == RunStatus.Failed)
  }

  /** A new attempt: wanted by the runner under the Task's contract, with its own lease, an unused grant until the
      expiry asked for, and one turn held. */
  predicate Admitted(s: State, q: Request, env: Env, next: State) {
    && q.attempt in next.attempts && q.attempt in next.ledger.reservations && q.task in s.tasks && q.task in next.tasks
    && var a, r := next.attempts[q.attempt], next.ledger.reservations[q.attempt];
       && (q.previous.None? ==> a.run.retry == 1)
       && (q.previous.Some? && q.previous.value in s.attempts ==>
             a.run.retry == s.attempts[q.previous.value].run.retry + 1)
       && a.run.task == q.task && a.run.status == RunStatus.Queued && a.run.desired == WantRunning && a.run.owner == Runner
       && a.run.contract == s.tasks[q.task].contract && a.run.configuration == env.configuration && !a.run.takeover
       && a.action.status == ActionStatus.Admitted && !a.action.dispatched && !a.action.notDelivered
       && a.grant == Grant(true, q.expires, 0)
       && a.outbox == Outbox.Delivery(q.payload, Outbox.Pending)
       && a.lease == a.run.lease && a.lease.holder == Some(env.worker) && a.lease.expires == env.now + LEASE_SECONDS
       && a.action.token == a.lease.token
       && r.status == Held && r.reserved == Count(1) && r.budget == q.task && r.action == q.attempt
       && next.tasks[q.task] == s.tasks[q.task].(status := TaskStatus.Active, active := Some(q.attempt))
       && next == s.(attempts := s.attempts[q.attempt := a], ledger := next.ledger,
                     tasks := s.tasks[q.task := next.tasks[q.task]])
       && next.ledger.budgets == s.ledger.budgets
       && next.ledger.reservations == s.ledger.reservations[q.attempt := r]
  }

  lemma HoldingReservable(l: Ledger, task: nat, n: nat)
    ensures WellFormed(Holding(task, task, n).reserved) && Holding(task, task, n).reserved != []
  {
    CountReads(1);
    ParseExact(Count(1));
  }

  /** A start of a new attempt is accepted exactly when the Task may start, nothing moved since it was made, and
      its budget still carries one turn; then everything is minted together, and nothing else changes. */
  lemma StartedExactly(s: State, q: Request, env: Env)
    requires StateOk(s) && q.attempt !in s.attempts
    ensures var r := Start(s, q, env);
            && (r.Ok? <==> MayStart(s, q) && q.configuration == env.configuration
                           && s.tasks[q.task].configuration == env.configuration
                           && Reservable(s.ledger, Holding(q.task, q.task, q.attempt)))
            && (r.Ok? ==> Admitted(s, q, env, r.value))
  {
    FreshNumber(s, q.task, q.attempt);
    ReservedExactly(s.ledger, q.attempt, Holding(q.task, q.task, q.attempt));
  }

  /** A Task is created exactly with a demand, under a new number and a limit the store can hold; it is ready, and
      its budget carries that many turns. Its demands change exactly while it is ready, and its contract with them. */
  lemma TasksExactly(s: State, task: nat, limit: nat, configuration: nat, acceptance: seq<Criterion>)
    ensures var made := Task(TaskStatus.Ready, 1, configuration, None, acceptance);
            var r := Create(s, task, limit, made);
            && (r.Ok? <==> && (exists i :: 0 <= i < |acceptance| && acceptance[i].required)
                           && task !in s.tasks && task !in s.ledger.budgets && limit <= MAX_INT)
            && (r.Ok? ==> task in r.value.tasks && r.value.tasks[task] == made && task in r.value.ledger.budgets
                          && r.value.ledger.budgets[task].task == task
                          && r.value.ledger.budgets[task].limits == Count(limit)
                          && r.value.attempts == s.attempts && r.value.ledger.reservations == s.ledger.reservations)
    ensures var r := Amend(s, task, acceptance);
            && (r.Ok? <==> && task in s.tasks && s.tasks[task].status == TaskStatus.Ready
                           && exists i :: 0 <= i < |acceptance| && acceptance[i].required)
            && (r.Ok? ==> r.value == s.(tasks := r.value.tasks) && task in r.value.tasks
                          && r.value.tasks == s.tasks[task := r.value.tasks[task]]
                          && r.value.tasks[task].acceptance == acceptance && r.value.tasks[task].status == TaskStatus.Ready
                          && r.value.tasks[task].contract == s.tasks[task].contract + 1)
  {
  }

  // ---------------------------------------------------------------- the command envelope

  /** A key is answered from its record alone; a new command runs once, unexpired, and its key is kept. */
  lemma EnvelopeExactly(s: State, key: nat, digest: nat, expires: int, c: Command, env: Env)
    ensures var r := Submit(s, key, digest, expires, c, env);
            && (key in s.operations ==> r == if s.operations[key] == digest then Ok(s) else Err(IdempotencyConflict))
            && (key !in s.operations ==>
                  && (r.Ok? <==> expires > env.now && Perform(s, c, env).Ok?)
                  && (r.Ok? ==> r.value == Perform(s, c, env).value.(operations := r.value.operations)
                                && key in r.value.operations && r.value.operations[key] == digest))
  {
  }

  /** A key stays bound to the command it first named. */
  lemma {:induction false} KeyStaysBound(s: State, events: seq<Event>, key: nat)
    requires key in s.operations
    ensures key in Execute(s, events).operations && Execute(s, events).operations[key] == s.operations[key]
    decreases |events|
  {
    if events != [] {
      StepKeepsKey(s, events[0].step, events[0].env, key, Next(s, events[0].step, events[0].env));
      KeyStaysBound(Next(s, events[0].step, events[0].env), events[1..], key);
    }
  }

  lemma SubmitKeepsKey(s: State, k: nat, digest: nat, expires: int, c: Command, env: Env, key: nat)
    requires key in s.operations
    ensures var next := AfterSubmit(s, k, digest, expires, c, env);
            key in next.operations && next.operations[key] == s.operations[key]
  {
    if Perform(s, c, env).Ok? {
      assert Perform(s, c, env).value.operations == s.operations;
    }
  }

  lemma StepKeepsKey(s: State, step: Step, env: Env, key: nat, next: State)
    requires key in s.operations && next == Next(s, step, env)
    ensures key in next.operations && next.operations[key] == s.operations[key]
  {
    match step
    case SubmitStep(k, digest, expires, c) => SubmitKeepsKey(s, k, digest, expires, c, env, key);
    case _ => assert next.operations == s.operations;
  }
}
