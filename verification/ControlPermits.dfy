/** What must hold when an attempt leaves the outbox and when its record starts, and what commands on a run
    guarantee from then on. */
module ControlPermits {
  import opened Wrappers
  import opened ControlLedger
  import opened ControlEntities
  import opened ControlSpec
  import opened ControlRuns
  import opened ControlOutcomes
  import Fencing
  import Outbox

  /** The run is wanted running by the runner, nothing it was admitted under has changed, its lease is this
      worker's and live, and its grant is live. */
  predicate Permitted(a: Attempt, task: Task, env: Env) {
    && a.run.desired == WantRunning && a.run.owner == Runner
    && a.run.configuration == env.configuration && a.run.contract == task.contract
    && a.lease.holder == Some(env.worker) && a.lease.expires > env.now
    && a.grant.active && a.grant.expires > env.now
  }

  /** The guard passes exactly what is permitted, the first time only for grants never used. */
  lemma PermittedExactly(a: Attempt, task: Task, env: Env, admitted: bool)
    requires LeaseAgrees(a)
    ensures GuardRefusal(a, task, env, admitted) == None
        <==> Permitted(a, task, env) && (a.grant.used == 0 || admitted)
  {
  }

  // ---------------------------------------------------------------- the steps that let something out

  predicate OnDispatch(step: Step, n: nat) {
    step.DispatchStep? && step.n == n
  }

  predicate OnRecord(step: Step, n: nat) {
    step.OutsideStep? && step.n == n
  }

  /** An attempt that is not dispatched keeps its use of the grant, no revoked grant comes back, and a cancelled
      run is not wanted again and ends cancelled if it ends. */
  predicate Tame(a: Attempt, b: Attempt) {
    && b.action.dispatched == a.action.dispatched
    && b.grant.used == a.grant.used && b.grant.expires == a.grant.expires && (b.grant.active ==> a.grant.active)
    && (a.run.desired == WantCanceled ==> b.run.desired == WantCanceled)
    && (a.run.desired == WantCanceled && RunOver(b.run.status)
        ==> b.run.status == RunStatus.Canceled || b.run.status == a.run.status)
  }

  /** The record is what it was, and nothing new is in an adapter's hands. */
  predicate SameRecord(s: State, next: State, n: nat) {
    && (n in next.legacy <==> n in s.legacy) && (n in s.legacy ==> next.legacy[n] == s.legacy[n])
    && (n in next.sending ==> n in s.sending)
  }

  predicate Untouched(s: State, next: State, n: nat) {
    n in s.attempts && n in next.attempts && Tame(s.attempts[n], next.attempts[n]) && SameRecord(s, next, n)
  }

  lemma PutUntouched(s: State, m: nat, v: View, n: nat)
    requires n in s.attempts && Known(s, m)
    requires m == n ==> Tame(s.attempts[n], v.a) && v.legacy == ViewOf(s, n).legacy && (v.sending ==> n in s.sending)
    ensures Untouched(s, Put(s, m, v), n)
  {
  }

  lemma EffectUntouched(s: State, m: nat, e: Effect, n: nat)
    requires n in s.attempts && Known(s, m)
    requires m == n ==> Tame(s.attempts[n], e.v.a) && e.v.legacy == ViewOf(s, n).legacy && (e.v.sending ==> n in s.sending)
    ensures Untouched(s, PutEffect(s, m, e), n)
  {
    PutUntouched(s, m, e.v, n);
  }

  /** The view `w` is of the same attempt, with nothing let out. */
  predicate Held(v: View, w: View) {
    Tame(v.a, w.a) && w.legacy == v.legacy && (w.sending ==> v.sending)
  }

  lemma OwnHolds(s: State, n: nat, env: Env)
    requires AttemptsSound(s) && Live(s, n) && Owned(s, n, env).Ok?
    ensures Held(ViewOf(s, n), Owned(s, n, env).value)
  {
    assert Sound(ViewOf(s, n));
    OwnFrame(s.attempts[n], env);
  }

  lemma ConcludeHolds(v: View, task: Task, env: Env)
    requires v.legacy.Some? && Conclude(v, task, env).Ok?
    ensures Held(v, Conclude(v, task, env).value.v)
  {
  }

  lemma EndedHolds(v: View)
    ensures v.a.run.desired == WantRunning ==> Held(v, Deny(v).v)
    ensures Held(v, NotApplied(v).v) && Held(v, UndeliveredControl(v).v) && Held(v, ConfirmPause(v).v)
  {
  }

  lemma CommandHolds(v: View, command: RunCommand, env: Env)
    requires Sound(v) && ControlSpec.Command(v, command, env).Ok?
    ensures Held(v, ControlSpec.Command(v, command, env).value)
  {
  }

  lemma PerformUntouched(s: State, c: Command, env: Env, n: nat)
    requires AttemptsSound(s) && n in s.attempts && Perform(s, c, env).Ok?
    ensures Untouched(s, Perform(s, c, env).value, n)
  {
    if c.Control? {
      ControlUntouched(s, c.n, c.action, env, n);
    }
  }

  lemma ControlUntouched(s: State, m: nat, action: RunCommand, env: Env, n: nat)
    requires AttemptsSound(s) && n in s.attempts && ControlRun(s, m, action, env).Ok?
    ensures Untouched(s, ControlRun(s, m, action, env).value, n)
  {
    assert Sound(ViewOf(s, m));
    CommandHolds(ViewOf(s, m), action, env);
    PutUntouched(s, m, ControlSpec.Command(ViewOf(s, m), action, env).value, n);
  }

  lemma SubmitUntouched(s: State, key: nat, digest: nat, expires: int, c: Command, env: Env, n: nat)
    requires AttemptsSound(s) && n in s.attempts
    ensures Untouched(s, AfterSubmit(s, key, digest, expires, c, env), n)
  {
    if Perform(s, c, env).Ok? {
      PerformUntouched(s, c, env, n);
    }
  }

  lemma TakeUntouched(s: State, m: nat, env: Env, n: nat)
    requires AttemptsSound(s) && n in s.attempts
    ensures Untouched(s, AfterTake(s, m, env), n)
  {
    if Live(s, m) && Owned(s, m, env).Ok? {
      OwnHolds(s, m, env);
      PutUntouched(s, m, Owned(s, m, env).value, n);
    }
  }

  lemma AbsentUntouched(s: State, m: nat, env: Env, n: nat)
    requires AttemptsSound(s) && n in s.attempts
    ensures Untouched(s, AfterAbsent(s, m, env), n)
  {
    if IntentAbsent(s, m) && Owned(s, m, env).Ok? {
      OwnHolds(s, m, env);
      EndedHolds(Owned(s, m, env).value);
      EffectUntouched(s, m, NotApplied(Owned(s, m, env).value), n);
    }
  }

  lemma UndeliveredUntouched(s: State, m: nat, n: nat)
    requires n in s.attempts
    ensures Untouched(s, AfterUndelivered(s, m), n)
  {
    if InOutbox(s, m) && s.attempts[m].run.desired != WantRunning {
      EndedHolds(ViewOf(s, m));
      EffectUntouched(s, m, UndeliveredControl(ViewOf(s, m)), n);
    }
  }

  lemma PauseUntouched(s: State, m: nat, env: Env, n: nat)
    requires AttemptsSound(s) && n in s.attempts
    ensures Untouched(s, AfterPauseObserved(s, m, env), n)
  {
    if Watched(s, m) && Undelivered(s.legacy[m]) && s.attempts[m].run.desired == WantPaused && Owned(s, m, env).Ok? {
      OwnHolds(s, m, env);
      EndedHolds(Owned(s, m, env).value);
      EffectUntouched(s, m, ConfirmPause(Owned(s, m, env).value), n);
    }
  }

  lemma ConcludeUntouched(s: State, m: nat, env: Env, n: nat)
    requires AttemptsSound(s) && n in s.attempts
    ensures Untouched(s, AfterConclude(s, m, env), n)
  {
    if Concludes(s, m, env) {
      var v := Owned(s, m, env).value;
      OwnHolds(s, m, env);
      ConcludeHolds(v, TaskOf(s, m), env);
      EffectUntouched(s, m, Conclude(v, TaskOf(s, m), env).value, n);
    }
  }

  lemma OtherDispatch(s: State, m: nat, env: Env, n: nat)
    requires n in s.attempts && m != n
    ensures Untouched(s, AfterDispatch(s, m, env), n)
  {
    if MayDispatch(s, m) {
      PutUntouched(s, m, Dispatch(ViewOf(s, m)), n);
      EffectUntouched(s, m, Deny(ViewOf(s, m)), n);
    }
  }

  lemma OtherOutside(s: State, m: nat, event: Outside, env: Env, n: nat)
    requires n in s.attempts && m != n
    ensures Untouched(s, AfterOutside(s, m, event, env), n)
  {
    if Known(s, m) {
      PutUntouched(s, m, Outer(ViewOf(s, m), event, TaskOf(s, m), env), n);
    }
  }

  lemma DeliverySteps(s: State, step: Step, env: Env, n: nat, next: State)
    requires AttemptsSound(s) && n in s.attempts && next == Next(s, step, env)
    requires step.Take? || step.AbsentIntent? || step.UndeliveredStep?
    ensures Untouched(s, next, n)
  {
    match step
    case Take(m) => TakeUntouched(s, m, env, n);
    case AbsentIntent(m) => AbsentUntouched(s, m, env, n);
    case UndeliveredStep(m) => UndeliveredUntouched(s, m, n);
  }

  lemma ControlSteps(s: State, step: Step, env: Env, n: nat, next: State)
    requires AttemptsSound(s) && n in s.attempts && next == Next(s, step, env)
    requires step.Take? || step.AbsentIntent? || step.UndeliveredStep? || step.PauseObserved? || step.MarkNotDelivered?
             || step.ConcludeStep?
    ensures Untouched(s, next, n)
  {
    match step
    case PauseObserved(m) => PauseUntouched(s, m, env, n);
    case MarkNotDelivered(m) => if Watched(s, m) { PutUntouched(s, m, ViewOf(s, m).(a := Flagged(s.attempts[m])), n); }
    case ConcludeStep(m) => ConcludeUntouched(s, m, env, n);
    case _ => DeliverySteps(s, step, env, n, next);
  }

  /** Every step but an attempt's own dispatch and its record's own events leaves it in. */
  lemma OtherSteps(s: State, step: Step, env: Env, n: nat, next: State)
    requires AttemptsSound(s) && n in s.attempts && next == Next(s, step, env)
    requires !OnDispatch(step, n) && !OnRecord(step, n)
    ensures Untouched(s, next, n)
  {
    match step
    case SubmitStep(key, digest, expires, c) => SubmitUntouched(s, key, digest, expires, c, env, n);
    case DispatchStep(m) => OtherDispatch(s, m, env, n);
    case OutsideStep(m, event) => OtherOutside(s, m, event, env, n);
    case Crash =>
    case _ => ControlSteps(s, step, env, n, next);
  }

  lemma RecordStep(s: State, step: Step, env: Env)
    requires step.OutsideStep?
    ensures Next(s, step, env) == AfterOutside(s, step.n, step.event, env)
  {
  }

  lemma OutboxStep(s: State, step: Step, env: Env)
    requires step.DispatchStep?
    ensures Next(s, step, env) == AfterDispatch(s, step.n, env)
  {
  }

  // ---------------------------------------------------------------- exactly when something leaves

  lemma OwnDispatch(s: State, n: nat, env: Env, next: State)
    requires AttemptsSound(s) && n in s.attempts && !s.attempts[n].action.dispatched && next == AfterDispatch(s, n, env)
    ensures Known(s, n) && n in next.attempts && SameRecord(s, next, n)
    ensures next.attempts[n].action.dispatched
        <==> !RunOver(s.attempts[n].run.status) && s.calling == None && Permitted(s.attempts[n], TaskOf(s, n), env)
    ensures next.attempts[n].action.dispatched ==> s.attempts[n].grant.used == 0
    ensures !next.attempts[n].action.dispatched ==> Tame(s.attempts[n], next.attempts[n])
  {
    var v := ViewOf(s, n);
    assert Sound(v);
    PermittedExactly(s.attempts[n], TaskOf(s, n), env, false);
    OverEverywhere(v);
    EndedHolds(v);
  }

  /** An Action leaves the outbox exactly in its own dispatch, with nothing else being called, for a run that
      is permitted, on a grant that was never used. */
  lemma DispatchedExactly(s: State, step: Step, env: Env, n: nat, next: State)
    requires AttemptsSound(s) && n in s.attempts && !s.attempts[n].action.dispatched && next == Next(s, step, env)
    ensures Known(s, n) && n in next.attempts
    ensures next.attempts[n].action.dispatched
        <==> OnDispatch(step, n) && !RunOver(s.attempts[n].run.status) && s.calling == None
             && Permitted(s.attempts[n], TaskOf(s, n), env)
    ensures next.attempts[n].action.dispatched ==> s.attempts[n].grant.used == 0
  {
    assert Known(s, n);
    if OnDispatch(step, n) {
      OutboxStep(s, step, env);
      OwnDispatch(s, n, env, next);
    } else if OnRecord(step, n) {
      RecordStep(s, step, env);
      RecordKeepsAttempt(s, n, step.event, env);
    } else {
      OtherSteps(s, step, env, n, next);
    }
  }

  lemma RecordKeepsAttempt(s: State, n: nat, event: Outside, env: Env)
    requires n in s.attempts
    ensures n in AfterOutside(s, n, event, env).attempts && AfterOutside(s, n, event, env).attempts[n] == s.attempts[n]
  {
  }

  lemma OuterStarts(v: View, event: Outside, task: Task, env: Env)
    requires LeaseAgrees(v.a) && !v.sending
    ensures Outer(v, event, task, env).sending
        <==> event == StartDispatch && v.legacy.Some? && Undelivered(v.legacy.value) && Permitted(v.a, task, env)
  {
    PermittedExactly(v.a, task, env, true);
  }

  lemma OwnStart(s: State, n: nat, event: Outside, env: Env, next: State)
    requires Known(s, n) && LeaseAgrees(s.attempts[n]) && n !in s.sending && next == AfterOutside(s, n, event, env)
    ensures n in next.sending
        <==> event == StartDispatch && n in s.legacy && Undelivered(s.legacy[n]) && Permitted(s.attempts[n], TaskOf(s, n), env)
  {
    OuterStarts(ViewOf(s, n), event, TaskOf(s, n), env);
  }

  /** A prompt reaches an adapter exactly when a stored, queued record starts while its run is permitted. */
  lemma StartedExactly(s: State, step: Step, env: Env, n: nat, next: State)
    requires AttemptsSound(s) && n in s.attempts && n !in s.sending && next == Next(s, step, env)
    ensures Known(s, n)
    ensures n in next.sending
        <==> step == OutsideStep(n, StartDispatch) && n in s.legacy && Undelivered(s.legacy[n])
             && Permitted(s.attempts[n], TaskOf(s, n), env)
  {
    assert Known(s, n);
    if OnRecord(step, n) {
      RecordStep(s, step, env);
      OwnStart(s, n, step.event, env, next);
    } else if OnDispatch(step, n) {
      OutboxStep(s, step, env);
      DispatchKeepsSending(s, n, env);
    } else {
      OtherSteps(s, step, env, n, next);
    }
  }

  lemma DispatchKeepsSending(s: State, n: nat, env: Env)
    ensures AfterDispatch(s, n, env).sending == s.sending
  {
  }

  // ---------------------------------------------------------------- revoked grants

  /** The grant is revoked before the record ever started. */
  predicate Barred(s: State, n: nat) {
    && n in s.attempts && !s.attempts[n].grant.active && n !in s.sending
    && (n in s.legacy ==> s.legacy[n].op == Intended)
  }

  lemma OwnRecordBarred(s: State, n: nat, event: Outside, env: Env)
    requires Barred(s, n)
    ensures Barred(AfterOutside(s, n, event, env), n)
  {
  }

  lemma DispatchBarred(s: State, n: nat, env: Env)
    requires Barred(s, n)
    ensures Barred(AfterDispatch(s, n, env), n)
  {
  }

  lemma UntouchedBarred(s: State, next: State, n: nat)
    requires Barred(s, n) && Untouched(s, next, n)
    ensures Barred(next, n)
  {
  }

  lemma StepBarred(s: State, step: Step, env: Env, n: nat, next: State)
    requires AttemptsSound(s) && Barred(s, n) && next == Next(s, step, env)
    ensures Barred(next, n)
  {
    if OnRecord(step, n) {
      RecordStep(s, step, env);
      OwnRecordBarred(s, n, step.event, env);
    } else if OnDispatch(step, n) {
      OutboxStep(s, step, env);
      DispatchBarred(s, n, env);
    } else {
      OtherSteps(s, step, env, n, next);
      UntouchedBarred(s, next, n);
    }
  }

  lemma {:induction false} StaysBarred(s: State, events: seq<Event>, n: nat)
    requires StateOk(s) && Barred(s, n)
    ensures StateOk(Execute(s, events)) && Barred(Execute(s, events), n)
    decreases |events|
  {
    if events != [] {
      var next := Next(s, events[0].step, events[0].env);
      NextKeeps(s, events[0].step, events[0].env, next);
      StepBarred(s, events[0].step, events[0].env, n, next);
      StaysBarred(next, events[1..], n);
    }
  }

  lemma BarredSendsNothing(s: State, n: nat)
    requires StateOk(s) && Barred(s, n)
    ensures Known(s, n) && Prompts(ViewOf(s, n)) == 0
  {
    assert Sound(ViewOf(s, n));
  }

  lemma BarredForGood(s: State, events: seq<Event>, n: nat)
    requires StateOk(s) && Barred(s, n)
    ensures var t := Execute(s, events);
            Known(t, n) && n !in t.sending && Prompts(ViewOf(t, n)) == 0 && !t.attempts[n].grant.active
  {
    StaysBarred(s, events, n);
    BarredSendsNothing(Execute(s, events), n);
  }

  lemma RevokeBars(s: State, n: nat, env: Env, next: State)
    requires ControlRun(s, n, RevokeGrant, env) == Ok(next)
    requires n !in s.sending && (n in s.legacy ==> s.legacy[n].op == Intended)
    ensures Barred(next, n)
  {
  }

  /** Once its grant is revoked, an attempt whose record has not started never submits a prompt, whatever
      commands, polls, clocks and crashes follow. */
  lemma RevokedNeverSends(s: State, n: nat, env: Env, next: State, events: seq<Event>)
    requires StateOk(s) && ControlRun(s, n, RevokeGrant, env) == Ok(next)
    requires n !in s.sending && (n in s.legacy ==> s.legacy[n].op == Intended)
    ensures var t := Execute(next, events);
            Known(t, n) && n !in t.sending && Prompts(ViewOf(t, n)) == 0 && !t.attempts[n].grant.active
  {
    ControlKeeps(s, n, RevokeGrant, env);
    RevokeBars(s, n, env, next);
    BarredForGood(next, events, n);
  }

  // ---------------------------------------------------------------- cancelled runs

  /** A cancel was accepted; if the run is over, it is cancelled. */
  predicate Condemned(s: State, n: nat) {
    && n in s.attempts && s.attempts[n].run.desired == WantCanceled
    && (RunOver(s.attempts[n].run.status) ==> s.attempts[n].run.status == RunStatus.Canceled)
  }

  lemma UntouchedCondemned(s: State, next: State, n: nat)
    requires Condemned(s, n) && Untouched(s, next, n)
    ensures Condemned(next, n)
  {
  }

  lemma StepCondemned(s: State, step: Step, env: Env, n: nat, next: State)
    requires AttemptsSound(s) && Condemned(s, n) && next == Next(s, step, env)
    ensures Condemned(next, n)
  {
    if OnRecord(step, n) {
      RecordStep(s, step, env);
      RecordKeepsAttempt(s, n, step.event, env);
    } else if OnDispatch(step, n) {
      OutboxStep(s, step, env);
      assert !MayDispatch(s, n);
    } else {
      OtherSteps(s, step, env, n, next);
      UntouchedCondemned(s, next, n);
    }
  }

  lemma {:induction false} StaysCondemned(s: State, events: seq<Event>, n: nat)
    requires StateOk(s) && Condemned(s, n)
    ensures Condemned(Execute(s, events), n)
    decreases |events|
  {
    if events != [] {
      var next := Next(s, events[0].step, events[0].env);
      NextKeeps(s, events[0].step, events[0].env, next);
      StepCondemned(s, events[0].step, events[0].env, n, next);
      StaysCondemned(next, events[1..], n);
    }
  }

  lemma CancelCondemns(s: State, n: nat, env: Env, next: State)
    requires ControlRun(s, n, CancelRun, env) == Ok(next)
    ensures Condemned(next, n)
  {
  }

  /** An accepted cancel cannot be taken back: whatever follows, the run stays unwanted, and if it ends, it ends
      cancelled. */
  lemma CancelIsFinal(s: State, n: nat, env: Env, next: State, events: seq<Event>)
    requires StateOk(s) && ControlRun(s, n, CancelRun, env) == Ok(next)
    ensures var t := Execute(next, events);
            && n in t.attempts && t.attempts[n].run.desired == WantCanceled
            && (RunOver(t.attempts[n].run.status) ==> t.attempts[n].run.status == RunStatus.Canceled)
  {
    ControlKeeps(s, n, CancelRun, env);
    CancelCondemns(s, n, env, next);
    StaysCondemned(next, events, n);
  }
}
