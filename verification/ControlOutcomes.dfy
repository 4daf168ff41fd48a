/** What the control runtime answers: how an attempt ends, what its Task is told, and what must hold when
    anything leaves for the executor. None of it is stated through the transactions' own functions. */
module ControlOutcomes {
  import opened Wrappers
  import opened ControlLedger
  import opened ControlEntities
  import opened ControlSpec
  import opened ControlRuns
  import Fencing
  import Outbox

  // ---------------------------------------------------------------- how an attempt ends

  /** The record says that the execution is over. */
  predicate Finished(l: Legacy) {
    l.status in {LegacyStatus.Succeeded, LegacyStatus.Failed, LegacyStatus.Cancelled} && l.terminated
  }

  /** The adapter proved that the prompt was not submitted. */
  predicate NeverSent(l: Legacy) {
    l.status == LegacyStatus.Failed && l.receipt == PromptNotSent
  }

  /** What a Task demands of a finished record: that it succeeded under the configuration and the contract
      the run started with, and said something if output is asked for. */
  predicate Demands(acceptance: seq<Criterion>, output: bool) {
    exists i :: 0 <= i < |acceptance| && acceptance[i].required && (output ==> acceptance[i].output)
  }

  predicate Delivered(run: Run, task: Task, l: Legacy, env: Env) {
    && (Demands(task.acceptance, false) ==>
          l.status == LegacyStatus.Succeeded && run.configuration == env.configuration && run.contract == task.contract)
    && (Demands(task.acceptance, true) ==> !l.blank)
  }

  /** The Task's verdict, by what the run is wanted to do and what the record says. */
  function TaskVerdict(run: Run, task: Task, l: Legacy, env: Env): Option<TaskStatus> {
    if !Finished(l) then None
    else
      match run.desired
      case WantCanceled => Some(TaskStatus.Canceled)
      case WantPaused => if NeverSent(l) then Some(TaskStatus.Failed) else None
      case WantRunning =>
        Some(if Delivered(run, task, l, env) && !NeverSent(l) then TaskStatus.Succeeded else TaskStatus.Failed)
  }

  predicate SameEnd(run: RunStatus, task: TaskStatus) {
    match task
    case Succeeded => run == RunStatus.Succeeded
    case Failed => run == RunStatus.Failed
    case Canceled => run == RunStatus.Canceled
    case _ => false
  }

  lemma AcceptedIsDelivered(a: Attempt, task: Task, l: Legacy, env: Env)
    ensures Accepted(a, task, l, env) <==> Delivered(a.run, task, l, env)
  {
    if Demands(task.acceptance, true) {
      var i :| 0 <= i < |task.acceptance| && task.acceptance[i].required && task.acceptance[i].output;
      assert Accepted(a, task, l, env) ==> !l.blank;
    }
    if Demands(task.acceptance, false) {
      var i :| 0 <= i < |task.acceptance| && task.acceptance[i].required;
      assert Accepted(a, task, l, env) ==> l.status == LegacyStatus.Succeeded;
    }
  }

  /** A conclusion that is not refused gives the Task its verdict and the run the same end. */
  lemma VerdictExact(v: View, task: Task, env: Env)
    requires Sound(v) && Sent(v) && v.legacy.Some? && Conclude(v, task, env).Ok?
    ensures var e := Conclude(v, task, env).value;
            && e.task == TaskVerdict(v.a.run, task, v.legacy.value, env)
            && (e.task.Some? ==> SameEnd(e.v.a.run.status, e.task.value))
            && e.v.a.run.task == v.a.run.task
  {
    AcceptedIsDelivered(v.a, task, v.legacy.value, env);
  }

  /** The proofs that nothing was submitted. */
  predicate ProvenUnsent(v: View) {
    && v.legacy.Some?
    && var l := v.legacy.value;
       NeverSent(l) || v.a.action.notDelivered
       || (l.status == LegacyStatus.Cancelled && l.cancelRequested && l.receipt == CancelledBeforeSpawn)
  }

  /** An attempt that ends spends its turn, unless it is proven that nothing was submitted. */
  lemma ChargedExactly(v: View, task: Task, env: Env)
    requires Sound(v) && Sent(v) && v.legacy.Some? && Conclude(v, task, env).Ok?
    requires Conclude(v, task, env).value.task.Some?
    ensures var w := Conclude(v, task, env).value.v;
            w.r.status == Settled && w.r.actual == Some(Count(if ProvenUnsent(v) then 0 else 1))
  {
  }

  /** An attempt that does not end: a pause is confirmed, a lost record makes it uncertain, a live one brings
      it back, and nothing else happens. */
  lemma UnfinishedExactly(v: View, task: Task, env: Env)
    requires Sound(v) && Sent(v) && v.legacy.Some? && Conclude(v, task, env).Ok?
    requires Conclude(v, task, env).value.task.None?
    ensures var w, l := Conclude(v, task, env).value.v, v.legacy.value;
            && (Finished(l) ==> w.a.run.status == RunStatus.Paused && w.r == v.r
                                && (v.a.run.takeover ==> w.a.run.owner == Human))
            && (!Finished(l) && l.status == LegacyStatus.PendingReconcile ==>
                  w.a.run.status == RunStatus.Reconciling && w.a.action.status == ActionStatus.UnknownRemote
                  && w.r.status == Uncertain)
            && (!Finished(l) && l.status != LegacyStatus.PendingReconcile && v.a.run.desired == WantRunning ==>
                  w.a.action.status == ActionStatus.Executing && w.r == v.r
                  && (w.a.run.status == RunStatus.Waiting <==> l.status in {LegacyStatus.WaitingInput, LegacyStatus.WaitingAuth})
                  && (w.a.run.status != RunStatus.Waiting ==> w.a.run.status == RunStatus.Running))
            && (!Finished(l) && l.status != LegacyStatus.PendingReconcile && v.a.run.desired != WantRunning ==> w == v)
  {
  }

  // ---------------------------------------------------------------- over the tables

  lemma OwnFrame(a: Attempt, env: Env)
    requires LeaseAgrees(a) && Own(a, env).Ok?
    ensures var b := Own(a, env).value;
            && b.run == a.run.(lease := b.run.lease) && b.action == a.action.(token := b.action.token)
            && b.grant == a.grant && b.assignment == a.assignment && b.outbox == a.outbox
  {
    OwnExact(a, env);
  }

  predicate Concludes(s: State, n: nat, env: Env) {
    && Watched(s, n) && Owned(s, n, env).Ok? && Conclude(Owned(s, n, env).value, TaskOf(s, n), env).Ok?
  }

  lemma WatchedSent(s: State, n: nat, env: Env)
    requires StateOk(s) && Watched(s, n) && Owned(s, n, env).Ok?
    ensures var v := Owned(s, n, env).value;
            && Sound(v) && Sent(v) && v.legacy == Some(s.legacy[n])
            && v.a.run == s.attempts[n].run.(lease := v.a.run.lease)
  {
    assert Sound(ViewOf(s, n));
    OwnKeeps(ViewOf(s, n), env);
    OwnFrame(s.attempts[n], env);
  }

  /** What a conclusion stores, read off the tables before it. */
  lemma ConclusionEffect(s: State, n: nat, env: Env, next: State) returns (e: Effect)
    requires StateOk(s) && Concludes(s, n, env) && next == AfterConclude(s, n, env)
    ensures next == PutEffect(s, n, e) && e.v.a.run.task == s.attempts[n].run.task
    ensures e.task == TaskVerdict(s.attempts[n].run, TaskOf(s, n), s.legacy[n], env)
    ensures e.task.Some? ==> SameEnd(e.v.a.run.status, e.task.value)
  {
    var v := Owned(s, n, env).value;
    e := Conclude(v, TaskOf(s, n), env).value;
    WatchedSent(s, n, env);
    VerdictExact(v, TaskOf(s, n), env);
    SameVerdict(v.a.run, s.attempts[n].run, TaskOf(s, n), s.legacy[n], env);
  }

  lemma SameVerdict(a: Run, b: Run, task: Task, l: Legacy, env: Env)
    requires a == b.(lease := a.lease)
    ensures TaskVerdict(a, task, l, env) == TaskVerdict(b, task, l, env)
  {
  }

  lemma EffectStored(s: State, n: nat, e: Effect)
    requires e.v.a.run.task in s.tasks
    ensures var t, next := e.v.a.run.task, PutEffect(s, n, e);
            && next.tasks == (if e.task.Some? then s.tasks[t := s.tasks[t].(status := e.task.value)] else s.tasks)
            && n in next.attempts && next.attempts[n] == e.v.a
  {
  }

  /** What a Task's verdict means for the tables. */
  predicate Told(s: State, n: nat, next: State, verdict: Option<TaskStatus>) {
    && n in s.attempts && n in next.attempts
    && var t := s.attempts[n].run.task;
       && t in s.tasks
       && next.tasks == (if verdict.Some? then s.tasks[t := s.tasks[t].(status := verdict.value)] else s.tasks)
       && (verdict.Some? ==> SameEnd(next.attempts[n].run.status, verdict.value))
  }

  lemma EffectTold(s: State, n: nat, e: Effect, next: State)
    requires n in s.attempts && s.attempts[n].run.task in s.tasks
    requires next == PutEffect(s, n, e) && e.v.a.run.task == s.attempts[n].run.task
    requires e.task.Some? ==> SameEnd(e.v.a.run.status, e.task.value)
    ensures Told(s, n, next, e.task)
  {
    EffectStored(s, n, e);
  }

  lemma ConclusionTold(s: State, n: nat, env: Env, next: State)
    requires StateOk(s) && Concludes(s, n, env) && next == AfterConclude(s, n, env)
    ensures Told(s, n, next, TaskVerdict(s.attempts[n].run, TaskOf(s, n), s.legacy[n], env))
  {
    var e := ConclusionEffect(s, n, env, next);
    EffectTold(s, n, e, next);
  }

  lemma StepConcludes(s: State, n: nat, env: Env)
    ensures Next(s, ConcludeStep(n), env) == AfterConclude(s, n, env)
  {
  }

  /** A Task is concluded exactly as its verdict says; without one it stays as it is. */
  lemma ConclusionExact(s: State, n: nat, env: Env, next: State, verdict: Option<TaskStatus>)
    requires StateOk(s) && Concludes(s, n, env) && next == Next(s, ConcludeStep(n), env)
    requires verdict == TaskVerdict(s.attempts[n].run, TaskOf(s, n), s.legacy[n], env)
    ensures Told(s, n, next, verdict)
  {
    StepConcludes(s, n, env);
    ConclusionTold(s, n, env, next);
  }

  // ---------------------------------------------------------------- Tasks that succeed

  /** This step concludes an attempt of Task `t` with success. */
  predicate Earns(s: State, step: Step, env: Env, t: nat) {
    && step.ConcludeStep? && Concludes(s, step.n, env) && s.attempts[step.n].run.task == t
    && TaskVerdict(s.attempts[step.n].run, TaskOf(s, step.n), s.legacy[step.n], env) == Some(TaskStatus.Succeeded)
  }

  predicate HasSucceeded(s: State, t: nat) {
    t in s.tasks && s.tasks[t].status == TaskStatus.Succeeded
  }

  predicate SameSuccess(s: State, next: State, t: nat) {
    HasSucceeded(next, t) <==> HasSucceeded(s, t)
  }

  lemma LiveTaskActive(s: State, n: nat)
    requires AttemptsSound(s) && AttemptsPlaced(s) && Live(s, n)
    ensures TaskOf(s, n).status == TaskStatus.Active
  {
    assert Placed(s, n);
  }

  /** Storing an effect of a live attempt gives success to its own Task, if to any. */
  lemma EffectSucceeds(s: State, n: nat, e: Effect, t: nat)
    requires Known(s, n) && TaskOf(s, n).status == TaskStatus.Active && e.v.a.run.task == s.attempts[n].run.task
    ensures HasSucceeded(PutEffect(s, n, e), t)
        <==> HasSucceeded(s, t) || (t == s.attempts[n].run.task && e.task == Some(TaskStatus.Succeeded))
  {
  }

  lemma PutSucceeds(s: State, n: nat, v: View, t: nat)
    ensures SameSuccess(s, Put(s, n, v), t)
  {
  }

  lemma OwnedTask(s: State, n: nat, env: Env)
    requires AttemptsSound(s) && Live(s, n) && Owned(s, n, env).Ok?
    ensures Owned(s, n, env).value.a.run.task == s.attempts[n].run.task
  {
    assert Sound(ViewOf(s, n));
    OwnFrame(s.attempts[n], env);
  }

  lemma OtherEffect(s: State, n: nat, e: Effect, t: nat)
    requires AttemptsSound(s) && AttemptsPlaced(s) && Live(s, n) && e.v.a.run.task == s.attempts[n].run.task
    requires e.task != Some(TaskStatus.Succeeded)
    ensures SameSuccess(s, PutEffect(s, n, e), t)
  {
    LiveTaskActive(s, n);
    EffectSucceeds(s, n, e, t);
  }

  lemma DispatchSucceeds(s: State, n: nat, env: Env, t: nat)
    requires AttemptsSound(s) && AttemptsPlaced(s)
    ensures SameSuccess(s, AfterDispatch(s, n, env), t)
  {
    if MayDispatch(s, n) {
      if GuardRefusal(s.attempts[n], TaskOf(s, n), env, false) == None {
        PutSucceeds(s, n, Dispatch(ViewOf(s, n)), t);
      } else {
        OtherEffect(s, n, Deny(ViewOf(s, n)), t);
      }
    }
  }

  lemma AbsentSucceeds(s: State, n: nat, env: Env, t: nat)
    requires AttemptsSound(s) && AttemptsPlaced(s)
    ensures SameSuccess(s, AfterAbsent(s, n, env), t)
  {
    if IntentAbsent(s, n) && Owned(s, n, env).Ok? {
      OwnedTask(s, n, env);
      OtherEffect(s, n, NotApplied(Owned(s, n, env).value), t);
    }
  }

  lemma UndeliveredFails(v: View)
    ensures UndeliveredControl(v).v.a.run.task == v.a.run.task && UndeliveredControl(v).task != Some(TaskStatus.Succeeded)
  {
  }

  lemma UndeliveredSucceeds(s: State, n: nat, t: nat)
    requires AttemptsSound(s) && AttemptsPlaced(s)
    ensures SameSuccess(s, AfterUndelivered(s, n), t)
  {
    if InOutbox(s, n) && s.attempts[n].run.desired != WantRunning {
      UndeliveredFails(ViewOf(s, n));
      OtherEffect(s, n, UndeliveredControl(ViewOf(s, n)), t);
    }
  }

  lemma PauseSucceeds(s: State, n: nat, env: Env, t: nat)
    requires AttemptsSound(s) && AttemptsPlaced(s)
    ensures SameSuccess(s, AfterPauseObserved(s, n, env), t)
  {
    if Watched(s, n) && Owned(s, n, env).Ok? {
      OwnedTask(s, n, env);
      OtherEffect(s, n, ConfirmPause(Owned(s, n, env).value), t);
    }
  }

  lemma ConcludeSucceeds(s: State, n: nat, env: Env, t: nat)
    requires StateOk(s)
    ensures HasSucceeded(AfterConclude(s, n, env), t) <==> HasSucceeded(s, t) || Earns(s, ConcludeStep(n), env, t)
  {
    if Concludes(s, n, env) {
      var e := ConclusionEffect(s, n, env, AfterConclude(s, n, env));
      LiveTaskActive(s, n);
      EffectSucceeds(s, n, e, t);
    }
  }

  lemma CommandSucceeds(s: State, c: Command, env: Env, t: nat)
    requires Perform(s, c, env).Ok?
    ensures SameSuccess(s, Perform(s, c, env).value, t)
  {
  }

  lemma SubmitSucceeds(s: State, key: nat, digest: nat, expires: int, c: Command, env: Env, t: nat)
    ensures SameSuccess(s, AfterSubmit(s, key, digest, expires, c, env), t)
  {
    if Perform(s, c, env).Ok? {
      CommandSucceeds(s, c, env, t);
    }
  }

  /** A step gives a Task success exactly when it concludes an attempt of it that earned it; no step takes
      success away. */
  lemma SucceedsExactly(s: State, step: Step, env: Env, t: nat, next: State)
    requires StateOk(s) && next == Next(s, step, env)
    ensures HasSucceeded(next, t) <==> HasSucceeded(s, t) || Earns(s, step, env, t)
  {
    match step
    case SubmitStep(key, digest, expires, c) => SubmitSucceeds(s, key, digest, expires, c, env, t);
    case Take(n) => if Live(s, n) && Owned(s, n, env).Ok? { PutSucceeds(s, n, Owned(s, n, env).value, t); }
    case DispatchStep(n) => DispatchSucceeds(s, n, env, t);
    case AbsentIntent(n) => AbsentSucceeds(s, n, env, t);
    case UndeliveredStep(n) => UndeliveredSucceeds(s, n, t);
    case PauseObserved(n) => PauseSucceeds(s, n, env, t);
    case MarkNotDelivered(n) => assert SameSuccess(s, AfterFlag(s, n), t);
    case ConcludeStep(n) => ConcludeSucceeds(s, n, env, t);
    case OutsideStep(n, event) => assert SameSuccess(s, AfterOutside(s, n, event, env), t);
    case Crash =>
  }

  /** Somewhere along the run a step earns Task `t` its success. */
  predicate EarnedAlong(s: State, events: seq<Event>, t: nat)
    decreases |events|
  {
    events != [] && (Earns(s, events[0].step, events[0].env, t)
                     || EarnedAlong(Next(s, events[0].step, events[0].env), events[1..], t))
  }

  lemma {:induction false} SuccessAlong(s: State, events: seq<Event>, t: nat)
    requires StateOk(s)
    ensures HasSucceeded(Execute(s, events), t) <==> HasSucceeded(s, t) || EarnedAlong(s, events, t)
    decreases |events|
  {
    if events != [] {
      var next := Next(s, events[0].step, events[0].env);
      NextKeeps(s, events[0].step, events[0].env, next);
      SucceedsExactly(s, events[0].step, events[0].env, t, next);
      SuccessAlong(next, events[1..], t);
    }
  }

  /** Over every run of commands, polls, executor events and crashes a Task has succeeded exactly when one of
      its attempts was concluded as its acceptance criteria demand. */
  lemma SuccessIsEarned(events: seq<Event>, t: nat)
    ensures HasSucceeded(Execute(EMPTY_STATE, events), t) <==> EarnedAlong(EMPTY_STATE, events, t)
  {
    EmptyOk();
    SuccessAlong(EMPTY_STATE, events, t);
  }

  // ---------------------------------------------------------------- what success takes

  ghost predicate AllDemand(s: State) {
    forall t :: t in s.tasks ==> Demanding(s.tasks[t].acceptance)
  }

  /** Statuses may change, and new Tasks must demand something. */
  ghost predicate SameDemands(s: State, next: State) {
    forall t :: t in next.tasks ==>
      Demanding(next.tasks[t].acceptance) || (t in s.tasks && next.tasks[t].acceptance == s.tasks[t].acceptance)
  }

  lemma CommandDemands(s: State, c: Command, env: Env)
    requires Perform(s, c, env).Ok?
    ensures SameDemands(s, Perform(s, c, env).value)
  {
  }

  lemma SubmitDemands(s: State, key: nat, digest: nat, expires: int, c: Command, env: Env)
    ensures SameDemands(s, AfterSubmit(s, key, digest, expires, c, env))
  {
    if Perform(s, c, env).Ok? {
      CommandDemands(s, c, env);
    }
  }

  lemma EffectDemands(s: State, n: nat, e: Effect)
    ensures SameDemands(s, PutEffect(s, n, e))
  {
  }

  lemma ConcludeDemands(s: State, n: nat, env: Env)
    ensures SameDemands(s, AfterConclude(s, n, env))
  {
    if Concludes(s, n, env) {
      EffectDemands(s, n, Conclude(Owned(s, n, env).value, TaskOf(s, n), env).value);
    }
  }

  lemma NextDemands(s: State, step: Step, env: Env, next: State)
    requires next == Next(s, step, env)
    ensures SameDemands(s, next)
  {
    match step
    case SubmitStep(key, digest, expires, c) => SubmitDemands(s, key, digest, expires, c, env);
    case DispatchStep(n) => if MayDispatch(s, n) { EffectDemands(s, n, Deny(ViewOf(s, n))); }
    case AbsentIntent(n) => if IntentAbsent(s, n) && Owned(s, n, env).Ok? { EffectDemands(s, n, NotApplied(Owned(s, n, env).value)); }
    case UndeliveredStep(n) => if InOutbox(s, n) { EffectDemands(s, n, UndeliveredControl(ViewOf(s, n))); }
    case PauseObserved(n) => if Watched(s, n) && Owned(s, n, env).Ok? { EffectDemands(s, n, ConfirmPause(Owned(s, n, env).value)); }
    case ConcludeStep(n) => ConcludeDemands(s, n, env);
    case _ => assert next.tasks == s.tasks;
  }

  lemma {:induction false} RunDemands(s: State, events: seq<Event>)
    requires AllDemand(s)
    ensures AllDemand(Execute(s, events))
    decreases |events|
  {
    if events != [] {
      var next := Next(s, events[0].step, events[0].env);
      NextDemands(s, events[0].step, events[0].env, next);
      RunDemands(next, events[1..]);
    }
  }

  lemma DemandingDemands(acceptance: seq<Criterion>)
    requires Demanding(acceptance)
    ensures Demands(acceptance, false)
  {
  }

  /** In every reachable state success takes a finished record that succeeded, of a run that is wanted running,
      under the configuration and the contract it started with, and that said something if output is required. */
  lemma EarnedByRecord(events: seq<Event>, step: Step, env: Env, t: nat)
    requires Earns(Execute(EMPTY_STATE, events), step, env, t)
    ensures var s := Execute(EMPTY_STATE, events);
            var run, l := s.attempts[step.n].run, s.legacy[step.n];
            && l.status == LegacyStatus.Succeeded && l.terminated && run.desired == WantRunning
            && run.configuration == env.configuration && run.contract == s.tasks[t].contract
            && (Demands(s.tasks[t].acceptance, true) ==> !l.blank)
  {
    RunDemands(EMPTY_STATE, events);
    DemandingDemands(Execute(EMPTY_STATE, events).tasks[t].acceptance);
  }
}
