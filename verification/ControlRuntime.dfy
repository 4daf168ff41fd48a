/** The control runtime as the program runs it. A transaction works on the entities it has read,
    checks every status edge as it goes, and commits its rows only when none was refused; the
    contracts tie what it commits to the closed forms of `ControlSpec`. */
module ControlRuntime {
  import opened Wrappers
  import opened ControlLedger
  import opened ControlEntities
  import opened ControlSpec
  import opened ControlRuns
  import opened ControlTurns
  import Fencing
  import Outbox

  // ---------------------------------------------------------------- status edges

  method TransitionRun(run: Run, to: RunStatus) returns (r: Result<Run>)
    ensures r == if run.status == to || MayRun(run.status, to) then Ok(run.(status := to)) else Err(InvalidArgument)
  {
    if run.status == to {
      return Ok(run);
    }
    if !MayRun(run.status, to) {
      return Err(InvalidArgument);
    }
    return Ok(run.(status := to));
  }

  method TransitionAction(action: Action, to: ActionStatus) returns (r: Result<Action>)
    ensures r == if action.status == to || MayAction(action.status, to) then Ok(action.(status := to))
                 else Err(InvalidArgument)
  {
    if action.status == to {
      return Ok(action);
    }
    if !MayAction(action.status, to) {
      return Err(InvalidArgument);
    }
    return Ok(action.(status := to));
  }

  method TransitionAssignment(from: AssignmentStatus, to: AssignmentStatus) returns (r: Result<AssignmentStatus>)
    ensures r == if from == to || MayAssignment(from, to) then Ok(to) else Err(InvalidArgument)
  {
    if from != to && !MayAssignment(from, to) {
      return Err(InvalidArgument);
    }
    return Ok(to);
  }

  method TransitionTask(task: Task, to: TaskStatus) returns (r: Result<Task>)
    ensures r == if task.status == to || MayTask(task.status, to) then Ok(task.(status := to)) else Err(InvalidArgument)
  {
    if task.status == to {
      return Ok(task);
    }
    if !MayTask(task.status, to) {
      return Err(InvalidArgument);
    }
    return Ok(task.(status := to));
  }

  /** `_own` on the run, the action and the stored lease. */
  method OwnAttempt(a: Attempt, env: Env) returns (r: Result<Attempt>)
    ensures r == Own(a, env)
  {
    var b := a;
    var lease := b.run.lease;
    if lease.holder != Some(env.worker) {
      if !env.locked {
        return Err(LeaseLost);
      }
    } else if lease.expires > env.now + RENEW_SECONDS {
      var checked := Fencing.Check(Some(b.lease), env.worker, lease.token, env.now);
      if checked.Err? {
        return Err(checked.error);
      }
      if b.action.token != lease.token {
        b := b.(action := b.action.(token := lease.token));
      }
      return Ok(b);
    }
    if lease.holder.None? {
      return Err(LeaseLost);
    }
    var released := Fencing.Release(Some(b.lease), lease.holder.value, lease.token);
    if released.Err? {
      return Err(released.error);
    }
    b := b.(lease := released.value);
    var claimed := Fencing.Claim(Some(b.lease), env.worker, env.now + LEASE_SECONDS, env.now);
    if claimed.Err? {
      return Err(claimed.error);
    }
    b := b.(lease := claimed.value);
    b := b.(run := b.run.(lease := claimed.value));
    b := b.(action := b.action.(token := claimed.value.token));
    return Ok(b);
  }

  /** The guard's checks in order. */
  method DispatchGuard(a: Attempt, task: Task, env: Env, admitted: bool) returns (r: Option<Error>)
    ensures r == GuardRefusal(a, task, env, admitted)
  {
    if a.run.desired != WantRunning || a.run.owner != Runner {
      return Some(Forbidden);
    }
    if a.run.configuration != env.configuration || task.contract != a.run.contract {
      return Some(RevisionConflict);
    }
    if a.run.lease.holder != Some(env.worker) || a.action.token != a.run.lease.token {
      return Some(LeaseLost);
    }
    var checked := Fencing.Check(Some(a.lease), env.worker, a.run.lease.token, env.now);
    if checked.Err? {
      return Some(LeaseLost);
    }
    if !a.grant.active || a.grant.expires <= env.now || (a.grant.used >= 1 && !admitted) {
      return Some(AuthRequired);
    }
    return None;
  }

  // ---------------------------------------------------------------- transactions on the entities read

  /** The entities a transaction has read and may commit. */
  datatype Entities = Entities(a: Attempt, book: Ledger, task: Task)

  /** An open attempt of an active Task, as every transaction of `advance` finds it. */
  predicate Found(d: Entities, n: nat, v: View) {
    && n in d.book.reservations && v.a == d.a && v.r == d.book.reservations[n]
    && ControlRuns.Open(v) && d.task.status == TaskStatus.Active
  }

  /** The draft holds exactly the effect. */
  predicate Holds(d: Entities, from: Entities, n: nat, e: Effect) {
    && d.a == e.v.a && d.book == Rewrite(from.book, n, e.v.r)
    && d.task == match e.task case Some(status) => from.task.(status := status) case None => from.task
  }

  lemma SettleTurnsAccepted(book: Ledger, n: nat, turns: nat)
    requires n in book.reservations && turns <= 1
    requires book.reservations[n].reserved == Count(1) && book.reservations[n].status in {Held, Uncertain}
    ensures Settle(book, n, Count(turns), []) == Ok(Rewrite(book, n, SettleTurns(book.reservations[n], turns)))
  {
    CountReads(0);
    CountReads(1);
    assert map[TURNS := turns].Keys == map[TURNS := 1].Keys;
  }

  /** `_settle_reservation` and `finish_delivery`. */
  method SettleAndFinish(d: Entities, n: nat, turns: nat) returns (r: Result<Entities>)
    requires turns <= 1
    ensures n in d.book.reservations && d.book.reservations[n].reserved == Count(1)
            && d.book.reservations[n].status in {Held, Uncertain} ==>
              r == Ok(Entities(d.a.(outbox := d.a.outbox.(status := Outbox.Done)),
                            Rewrite(d.book, n, SettleTurns(d.book.reservations[n], turns)), d.task))
  {
    if n in d.book.reservations && d.book.reservations[n].reserved == Count(1)
       && d.book.reservations[n].status in {Held, Uncertain}
    {
      SettleTurnsAccepted(d.book, n, turns);
    }
    var book :- Settle(d.book, n, Count(turns), []);
    var finished := Outbox.Finish(Some(d.a.outbox)).value;
    return Ok(Entities(d.a.(outbox := finished), book, d.task));
  }

  /** `_not_applied` after ownership. */
  method NotAppliedTx(d: Entities, n: nat, ghost v: View) returns (r: Result<Entities>)
    ensures Found(d, n, v) && v.a.action.dispatched ==>
              && (r.Err? <==> v.a.run.desired != WantCanceled && v.a.run.status == RunStatus.Paused)
              && (r.Err? ==> r == Err(InvalidArgument))
              && (r.Ok? ==> Holds(r.value, d, n, NotApplied(v)))
  {
    var action :- TransitionAction(d.a.action, ActionStatus.Failed);
    var b :- SettleAndFinish(d.(a := d.a.(action := action)), n, 0);
    var assignment :- TransitionAssignment(b.a.assignment, AssignmentStatus.Failed);
    var run := b.a.run;
    if run.desired == WantCanceled {
      if run.status != RunStatus.Canceling {
        run :- TransitionRun(run, RunStatus.Canceling);
      }
      run :- TransitionRun(run, RunStatus.Canceled);
    } else {
      if run.status == RunStatus.Pausing {
        run :- TransitionRun(run, RunStatus.Reconciling);
      }
      run :- TransitionRun(run, RunStatus.Failed);
    }
    var task :- TransitionTask(b.task, TaskAfter(run.status));
    return Ok(Entities(b.a.(assignment := assignment, run := run), b.book, task));
  }

  /** `_deny`. */
  method DenyTx(d: Entities, n: nat, ghost v: View) returns (r: Result<Entities>)
    ensures Found(d, n, v) && !v.a.action.dispatched && v.a.run.desired == WantRunning ==>
              r.Ok? && Holds(r.value, d, n, Deny(v))
  {
    var action :- TransitionAction(d.a.action, ActionStatus.Denied);
    var b :- SettleAndFinish(d.(a := d.a.(action := action)), n, 0);
    var assignment :- TransitionAssignment(b.a.assignment, AssignmentStatus.Canceled);
    var run := b.a.run;
    if run.status == RunStatus.Queued {
      run :- TransitionRun(run, RunStatus.Preparing);
    }
    run :- TransitionRun(run, RunStatus.Failed);
    var task :- TransitionTask(b.task, TaskStatus.Failed);
    return Ok(Entities(b.a.(assignment := assignment, run := run), b.book, task));
  }

  /** `_cancel_not_applied`: straight to CANCELED, whatever the run's status is. */
  method CancelNotAppliedTx(d: Entities, n: nat, ghost v: View) returns (r: Result<Entities>)
    ensures Found(d, n, v) && v.a.action.dispatched ==>
              && (r.Ok? <==> v.a.run.status == RunStatus.Canceling)
              && (r.Err? ==> r == Err(InvalidArgument))
              && (r.Ok? ==> Holds(r.value, d, n, CancelNotApplied(v)))
  {
    var action := d.a.action;
    if action.status == ActionStatus.Executing {
      assert MayAction(action.status, ActionStatus.UnknownRemote);
      action := action.(status := ActionStatus.UnknownRemote);
    }
    action :- TransitionAction(action, ActionStatus.Canceled);
    var b :- SettleAndFinish(d.(a := d.a.(action := action)), n, 0);
    var assignment :- TransitionAssignment(b.a.assignment, AssignmentStatus.Canceled);
    var run :- TransitionRun(b.a.run, RunStatus.Canceled);
    var task :- TransitionTask(b.task, TaskStatus.Canceled);
    return Ok(Entities(b.a.(assignment := assignment, run := run), b.book, task));
  }

  /** `_transfer_if_requested`. */
  method Transfer(run: Run) returns (next: Run)
    ensures next == Transferred(run)
  {
    next := run;
    if next.takeover && next.owner != Human {
      next := next.(owner := Human, epoch := next.epoch + 1);
    }
  }

  /** `_undelivered_control`. */
  method UndeliveredTx(d: Entities, n: nat, ghost v: View) returns (r: Result<Entities>)
    ensures Found(d, n, v) && !v.a.action.dispatched && v.a.run.desired != WantRunning ==>
              r.Ok? && Holds(r.value, d, n, UndeliveredControl(v))
  {
    if d.a.run.desired == WantPaused {
      var run := d.a.run;
      if run.status != RunStatus.Paused {
        run :- TransitionRun(run, RunStatus.Paused);
      }
      run := Transfer(run);
      assert n in d.book.reservations ==> d.book == Rewrite(d.book, n, d.book.reservations[n]);
      return Ok(d.(a := d.a.(run := run)));
    }
    var action :- TransitionAction(d.a.action, ActionStatus.Canceled);
    var b :- SettleAndFinish(d.(a := d.a.(action := action)), n, 0);
    var assignment :- TransitionAssignment(b.a.assignment, AssignmentStatus.Canceled);
    var run :- TransitionRun(b.a.run, RunStatus.Canceled);
    var task :- TransitionTask(b.task, TaskStatus.Canceled);
    return Ok(Entities(b.a.(assignment := assignment, run := run), b.book, task));
  }

  /** A pause confirmed by the executor's record. */
  method PauseTx(d: Entities, n: nat, ghost v: View) returns (r: Result<Entities>)
    ensures Found(d, n, v) && v.a.action.dispatched && v.a.run.desired == WantPaused ==>
              r.Ok? && Holds(r.value, d, n, ConfirmPause(v))
  {
    var run := d.a.run;
    if run.status == RunStatus.Reconciling {
      assert MayRun(run.status, RunStatus.Pausing);
      run := run.(status := RunStatus.Pausing);
    }
    if run.status != RunStatus.Paused {
      run :- TransitionRun(run, RunStatus.Paused);
    }
    run := Transfer(run);
    assert n in d.book.reservations ==> d.book == Rewrite(d.book, n, d.book.reservations[n]);
    return Ok(d.(a := d.a.(run := run)));
  }

  /** `_unknown`. */
  method UnknownTx(d: Entities, n: nat, ghost v: View) returns (r: Result<Entities>)
    ensures Found(d, n, v) && v.a.action.dispatched ==> r.Ok? && Holds(r.value, d, n, Unknown(v))
  {
    var action, book := d.a.action, d.book;
    assert n in d.book.reservations ==> d.book == Rewrite(d.book, n, d.book.reservations[n]);
    if action.status != ActionStatus.UnknownRemote {
      action :- TransitionAction(action, ActionStatus.UnknownRemote);
      book :- MarkUncertain(book, n);
    }
    var run := d.a.run;
    if run.status != RunStatus.Reconciling {
      run :- TransitionRun(run, RunStatus.Reconciling);
    }
    return Ok(Entities(d.a.(action := action, run := run), book, d.task));
  }

  /** The record is alive again and the run should be running. */
  method ObservedTx(d: Entities, n: nat, l: Legacy, ghost v: View) returns (r: Result<Entities>)
    ensures Found(d, n, v) && v.a.action.dispatched && v.legacy == Some(l) && v.a.run.desired == WantRunning ==>
              r.Ok? && Holds(r.value, d, n, Observed(v))
  {
    var action := d.a.action;
    if action.status == ActionStatus.UnknownRemote {
      action :- TransitionAction(action, ActionStatus.Executing);
    }
    var run := d.a.run;
    if l.status == LegacyStatus.WaitingInput || l.status == LegacyStatus.WaitingAuth {
      run :- TransitionRun(run, RunStatus.Waiting);
    } else if run.status != RunStatus.Running {
      run :- TransitionRun(run, RunStatus.Running);
    }
    assert n in d.book.reservations ==> d.book == Rewrite(d.book, n, d.book.reservations[n]);
    return Ok(d.(a := d.a.(action := action, run := run)));
  }

  /** Every required criterion, one by one. */
  method Verdict(a: Attempt, task: Task, l: Legacy, env: Env) returns (passed: bool)
    ensures passed <==> Accepted(a, task, l, env)
  {
    passed := true;
    for i := 0 to |task.acceptance|
      invariant passed <==> Accepted(a, task.(acceptance := task.acceptance[..i]), l, env)
    {
      var result := l.status == LegacyStatus.Succeeded && a.run.configuration == env.configuration
                    && a.run.contract == task.contract;
      if task.acceptance[i].output {
        result := result && !l.blank;
      }
      if task.acceptance[i].required {
        passed := passed && result;
      }
      assert task.acceptance[..i + 1] == task.acceptance[..i] + [task.acceptance[i]];
    }
    assert task.acceptance[..|task.acceptance|] == task.acceptance;
    assert task.(acceptance := task.acceptance) == task;
  }

  /** The action's effect is confirmed and its turn is spent. */
  method SpendTurn(d: Entities, n: nat, ghost v: View) returns (r: Result<Entities>)
    ensures Found(d, n, v) && v.a.action.dispatched && !v.a.action.notDelivered ==>
              r == Ok(Entities(d.a.(action := d.a.action.(status := ActionStatus.Succeeded),
                                    outbox := d.a.outbox.(status := Outbox.Done)),
                               Rewrite(d.book, n, SettleTurns(d.book.reservations[n], 1)), d.task))
  {
    var action := d.a.action;
    if action.status == ActionStatus.UnknownRemote || action.status == ActionStatus.Executing {
      assert MayAction(action.status, ActionStatus.Verifying);
      action := action.(status := ActionStatus.Verifying);
    }
    action :- TransitionAction(action, ActionStatus.Succeeded);
    r := SettleAndFinish(d.(a := d.a.(action := action)), n, if action.notDelivered then 0 else 1);
  }

  method CloseCanceled(b: Entities) returns (r: Result<Entities>)
    ensures b.a.run.status in {RunStatus.Canceling, RunStatus.Reconciling} && b.a.assignment == AssignmentStatus.Running
            && b.task.status == TaskStatus.Active ==>
              r == Ok(b.(a := b.a.(assignment := AssignmentStatus.Canceled, run := b.a.run.(status := RunStatus.Canceled)),
                         task := b.task.(status := TaskStatus.Canceled)))
  {
    var run := b.a.run;
    if run.status != RunStatus.Canceling {
      run :- TransitionRun(run, RunStatus.Canceling);
    }
    var assignment :- TransitionAssignment(b.a.assignment, AssignmentStatus.Canceled);
    run :- TransitionRun(run, RunStatus.Canceled);
    var task :- TransitionTask(b.task, TaskStatus.Canceled);
    return Ok(b.(a := b.a.(assignment := assignment, run := run), task := task));
  }

  method CloseVerified(b: Entities, passed: bool) returns (r: Result<Entities>)
    ensures b.a.run.status in {RunStatus.Preparing, RunStatus.Running, RunStatus.Waiting, RunStatus.Reconciling}
            && b.a.assignment == AssignmentStatus.Running && b.task.status == TaskStatus.Active ==>
              r == Ok(b.(a := b.a.(assignment := if passed then AssignmentStatus.Succeeded else AssignmentStatus.Failed,
                                   run := b.a.run.(status := if passed then RunStatus.Succeeded else RunStatus.Failed)),
                         task := b.task.(status := if passed then TaskStatus.Succeeded else TaskStatus.Failed)))
  {
    var run := b.a.run;
    if run.status != RunStatus.Running {
      run :- TransitionRun(run, RunStatus.Running);
    }
    var assignment :- TransitionAssignment(b.a.assignment, AssignmentStatus.Verifying);
    assignment :- TransitionAssignment(assignment, if passed then AssignmentStatus.Succeeded else AssignmentStatus.Failed);
    run :- TransitionRun(run, if passed then RunStatus.Succeeded else RunStatus.Failed);
    var task :- TransitionTask(b.task, if passed then TaskStatus.Succeeded else TaskStatus.Failed);
    return Ok(b.(a := b.a.(assignment := assignment, run := run), task := task));
  }

  /** `_complete`. */
  method CompleteTx(d: Entities, n: nat, l: Legacy, env: Env, ghost v: View) returns (r: Result<Entities>)
    ensures Found(d, n, v) && v.a.action.dispatched && v.legacy == Some(l)
            && v.a.run.desired != WantPaused && !v.a.action.notDelivered ==>
              r.Ok? && Holds(r.value, d, n, Complete(v, d.task, env))
  {
    var b :- SpendTurn(d, n, v);
    if d.a.run.desired == WantCanceled {
      r := CloseCanceled(b);
    } else {
      var passed := Verdict(d.a, d.task, l, env);
      r := CloseVerified(b, passed);
    }
  }

  /** Ownership first, then what the record proves: the last transaction of `_observe`. */
  method ConcludeTx(d: Entities, n: nat, l: Legacy, env: Env, ghost v: View) returns (r: Result<Entities>)
    ensures Found(d, n, v) && v.a.action.dispatched && v.legacy == Some(l) ==>
              match Own(v.a, env)
              case Err(error) => r == Err(error)
              case Ok(a) =>
                match Conclude(v.(a := a), d.task, env)
                case Err(error) => r == Err(error)
                case Ok(e) => r.Ok? && Holds(r.value, d, n, e)
  {
    var a :- OwnAttempt(d.a, env);
    ghost var w := v.(a := a);
    if Found(d, n, v) {
      OwnOpen(v, a, env);
    }
    r := ConcludeOwned(d.(a := a), n, l, env, w);
  }

  /** Terminal records first, then lost ones, then live ones; anything else is left alone. */
  method ConcludeOwned(d: Entities, n: nat, l: Legacy, env: Env, ghost v: View) returns (r: Result<Entities>)
    ensures Found(d, n, v) && v.a.action.dispatched && v.legacy == Some(l) && Own(v.a, env) == Ok(v.a) ==>
              match Conclude(v, d.task, env)
              case Err(error) => r == Err(error)
              case Ok(e) => r.Ok? && Holds(r.value, d, n, e)
  {
    assert n in d.book.reservations ==> d.book == Rewrite(d.book, n, d.book.reservations[n]);
    if LegacyOver(l.status) && l.terminated {
      if ConfirmedCancelled(l) {
        r := CancelNotAppliedTx(d, n, v);
      } else if ConfirmedNotSent(l) {
        var again :- OwnAttempt(d.a, env);
        r := NotAppliedTx(d.(a := again), n, v);
      } else if d.a.action.notDelivered {
        r := CancelNotAppliedTx(d, n, v);
      } else if d.a.run.desired == WantPaused {
        r := PauseTx(d, n, v);
      } else {
        r := CompleteTx(d, n, l, env, v);
      }
    } else if l.status == LegacyStatus.PendingReconcile {
      r := UnknownTx(d, n, v);
    } else if d.a.run.desired == WantRunning {
      r := ObservedTx(d, n, l, v);
    } else {
      r := Ok(d);
    }
  }

  /** `_not_applied` where no local intent was ever recorded. */
  method AbsentTx(d: Entities, n: nat, env: Env, ghost v: View) returns (r: Result<Entities>)
    ensures Found(d, n, v) && v.a.action.dispatched && v.legacy.None? ==>
              && (Own(v.a, env).Err? ==> r == Err(Own(v.a, env).error))
              && (Own(v.a, env).Ok? ==> r.Ok?)
              && (r.Ok? ==> Holds(r.value, d, n, NotApplied(v.(a := Own(v.a, env).value))))
  {
    var a :- OwnAttempt(d.a, env);
    if Found(d, n, v) {
      OwnOpen(v, a, env);
    }
    r := NotAppliedTx(d.(a := a), n, v.(a := a));
  }

  /** The rows of the dispatch transaction: run, action, grant, outbox and assignment. */
  method DispatchTx(start: Attempt, ghost v: View) returns (r: Result<Attempt>)
    ensures ControlRuns.Open(v) && v.a == start && !start.action.dispatched && start.run.desired == WantRunning ==>
              r == Ok(Dispatch(v).a)
  {
    var a := start;
    a := a.(grant := a.grant.(used := a.grant.used + 1));
    if a.run.status in {RunStatus.Queued, RunStatus.Reconciling, RunStatus.Waiting} {
      assert MayRun(a.run.status, RunStatus.Preparing);
      a := a.(run := a.run.(status := RunStatus.Preparing));
    }
    var action :- TransitionAction(a.action.(dispatched := true), ActionStatus.Executing);
    var outbox :- Outbox.Mark(Some(a.outbox));
    var assignment :- TransitionAssignment(a.assignment, AssignmentStatus.Running);
    return Ok(a.(action := action, outbox := outbox, assignment := assignment));
  }

  function Answer(error: Option<Error>): Result<()> {
    if error.Some? then Err(error.value) else Ok(())
  }

  /** A command was carried out as `spec` says, or refused with nothing changed. */
  ghost predicate Answers(before: State, after: State, r: Result<()>, spec: Result<State>) {
    match spec
    case Ok(next) => r == Ok(()) && after == next
    case Err(error) => r == Err(error) && after == before
  }

  class ControlRuntime {
    var tasks: map<nat, Task>
    var attempts: map<nat, Attempt>
    var ledger: Ledger
    var operations: map<nat, nat>
    var legacy: map<nat, Legacy>
    var calling: Option<nat>
    var sending: set<nat>

    constructor ()
      ensures Tables() == EMPTY_STATE
    {
      tasks, attempts, ledger, operations := map[], map[], EMPTY, map[];
      legacy, calling, sending := map[], None, {};
    }

    ghost function Tables(): State
      reads this
    {
      State(tasks, attempts, ledger, operations, legacy, calling, sending)
    }

    method Load(n: nat) returns (d: Entities, ghost v: View)
      requires Known(Tables(), n)
      ensures d == Entities(attempts[n], ledger, tasks[attempts[n].run.task]) && v == ViewOf(Tables(), n)
    {
      d := Entities(attempts[n], ledger, tasks[attempts[n].run.task]);
      v := ViewOf(Tables(), n);
    }

    /** Commits a draft: the attempt's rows, the ledger and the Task. */
    method Commit(n: nat, d: Entities, ghost e: Effect)
      requires Known(Tables(), n) && d.a.run.task == attempts[n].run.task
      requires Holds(d, Entities(attempts[n], ledger, tasks[attempts[n].run.task]), n, e)
      requires e.v == ViewOf(Tables(), n).(a := e.v.a, r := e.v.r)
      modifies this
      ensures Tables() == PutEffect(old(Tables()), n, e)
    {
      ghost var s := Tables();
      var t := d.a.run.task;
      attempts := attempts[n := d.a];
      ledger := d.book;
      tasks := tasks[t := d.task];
      ghost var put := Put(s, n, e.v);
      assert put.legacy == s.legacy && put.sending == s.sending;
      assert e.task.None? ==> tasks == s.tasks;
    }

    method TakeOwnership(n: nat, env: Env) returns (r: Result<()>)
      requires Live(Tables(), n)
      modifies this
      ensures Tables() == AfterTake(old(Tables()), n, env)
      ensures r == Answer(OwnError(old(Tables()), n, env))
    {
      ghost var s := Tables();
      var d, v := Load(n);
      var owned := OwnAttempt(d.a, env);
      if owned.Ok? {
        OwnKeepsTask(d.a, env);
        assert ledger == Rewrite(ledger, n, ledger.reservations[n]);
        Commit(n, d.(a := owned.value), Effect(v.(a := owned.value), None));
      }
      return if owned.Err? then Err(owned.error) else Ok(());
    }

    /** `d` is what a transaction on the open attempt `n` has just read, `v` its view. */
    ghost predicate Opened(n: nat, d: Entities, v: View)
      reads this
    {
      && Known(Tables(), n)
      && d == Entities(attempts[n], ledger, tasks[attempts[n].run.task]) && v == ViewOf(Tables(), n)
      && Found(d, n, v) && (n in legacy ==> v.a.action.dispatched)
    }

    /** An open attempt as a transaction reads it, with the facts its contracts ask for. */
    method LoadOpen(n: nat) returns (d: Entities, ghost v: View)
      requires StateOk(Tables()) && Live(Tables(), n)
      ensures Opened(n, d, v)
    {
      LiveIsOpen(Tables(), n);
      assert Placed(Tables(), n);
      d, v := Load(n);
    }

    /** The dispatch transaction, or the denial that follows a refused guard. */
    method DispatchOrDeny(n: nat, env: Env) returns (called: bool)
      requires StateOk(Tables()) && MayDispatch(Tables(), n)
      modifies this
      ensures Tables() == AfterDispatch(old(Tables()), n, env)
      ensures called <==> GuardRefusal(old(attempts)[n], TaskOf(old(Tables()), n), env, false) == None
    {
      var d, v := LoadOpen(n);
      called := DispatchLoaded(n, env, d, v);
    }

    method DispatchLoaded(n: nat, env: Env, d: Entities, ghost v: View) returns (called: bool)
      requires MayDispatch(Tables(), n) && Opened(n, d, v)
      modifies this
      ensures Tables() == AfterDispatch(old(Tables()), n, env)
      ensures called <==> GuardRefusal(old(attempts)[n], TaskOf(old(Tables()), n), env, false) == None
    {
      var refusal := DispatchGuard(d.a, d.task, env, false);
      if refusal.Some? {
        var denied := DenyTx(d, n, v);
        Commit(n, denied.value, Deny(v));
        return false;
      }
      var sent := DispatchTx(d.a, v);
      attempts := attempts[n := sent.value];
      calling := Some(n);
      assert ledger == Rewrite(ledger, n, ledger.reservations[n]);
      assert sending == sending - {n};
      return true;
    }

    method ResolveAbsent(n: nat, env: Env) returns (r: Result<()>)
      requires StateOk(Tables()) && IntentAbsent(Tables(), n)
      modifies this
      ensures Tables() == AfterAbsent(old(Tables()), n, env)
      ensures r == Answer(OwnError(old(Tables()), n, env))
    {
      var d, v := LoadOpen(n);
      r := AbsentLoaded(n, env, d, v);
    }

    method AbsentLoaded(n: nat, env: Env, d: Entities, ghost v: View) returns (r: Result<()>)
      requires IntentAbsent(Tables(), n) && Opened(n, d, v)
      modifies this
      ensures Tables() == AfterAbsent(old(Tables()), n, env)
      ensures r == Answer(OwnError(old(Tables()), n, env))
    {
      var ended := AbsentTx(d, n, env, v);
      if ended.Err? {
        return Err(ended.error);
      }
      OwnKeepsTask(v.a, env);
      Commit(n, ended.value, NotApplied(v.(a := Own(v.a, env).value)));
      return Ok(());
    }

    method ControlUndelivered(n: nat)
      requires StateOk(Tables()) && InOutbox(Tables(), n) && attempts[n].run.desired != WantRunning
      modifies this
      ensures Tables() == AfterUndelivered(old(Tables()), n)
    {
      var d, v := LoadOpen(n);
      var done := UndeliveredTx(d, n, v);
      Commit(n, done.value, UndeliveredControl(v));
    }

    /** `_observe`'s early answer to a pause while the executor has not taken the intent. */
    method ObservePause(n: nat, env: Env) returns (r: Result<()>)
      requires StateOk(Tables()) && PausesUnsent(Tables(), n)
      modifies this
      ensures Tables() == AfterPauseObserved(old(Tables()), n, env)
      ensures r == Answer(OwnError(old(Tables()), n, env))
    {
      var d, v := LoadOpen(n);
      r := PauseLoaded(n, env, d, v);
    }

    method PauseLoaded(n: nat, env: Env, d: Entities, ghost v: View) returns (r: Result<()>)
      requires PausesUnsent(Tables(), n) && Opened(n, d, v)
      modifies this
      ensures Tables() == AfterPauseObserved(old(Tables()), n, env)
      ensures r == Answer(OwnError(old(Tables()), n, env))
    {
      var owned := OwnAttempt(d.a, env);
      if owned.Err? {
        return Err(owned.error);
      }
      OwnOpen(v, owned.value, env);
      ghost var w := v.(a := owned.value);
      var paused := PauseTx(d.(a := owned.value), n, w);
      Commit(n, paused.value, ConfirmPause(w));
      return Ok(());
    }

    method FlagNotDelivered(n: nat)
      requires StateOk(Tables()) && Watched(Tables(), n) && Undelivered(legacy[n])
      requires attempts[n].run.desired == WantCanceled
      modifies this
      ensures Tables() == AfterFlag(old(Tables()), n)
    {
      var d, v := LoadOpen(n);
      assert ledger == Rewrite(ledger, n, ledger.reservations[n]);
      Commit(n, d.(a := Flagged(d.a)), Effect(v.(a := Flagged(d.a)), None));
    }

    /** A refused edge leaves every table as it was. */
    method ConcludeObservation(n: nat, env: Env) returns (r: Result<()>)
      requires StateOk(Tables()) && Watched(Tables(), n)
      modifies this
      ensures Tables() == AfterConclude(old(Tables()), n, env)
      ensures r == Answer(ConcludeError(old(Tables()), n, env))
    {
      var d, v := LoadOpen(n);
      r := ConcludeLoaded(n, env, d, v);
    }

    method ConcludeLoaded(n: nat, env: Env, d: Entities, ghost v: View) returns (r: Result<()>)
      requires Watched(Tables(), n) && Opened(n, d, v)
      modifies this
      ensures Tables() == AfterConclude(old(Tables()), n, env)
      ensures r == Answer(ConcludeError(old(Tables()), n, env))
    {
      var ended := ConcludeTx(d, n, legacy[n], env, v);
      match ended
      case Err(error) => return Err(error);
      case Ok(done) =>
        ghost var w := v.(a := Own(v.a, env).value);
        ConcludedRows(v, w, d.task, env);
        Commit(n, done, Conclude(w, d.task, env).value);
        return Ok(());
    }

    // -------------------------------------------------------------- commands

    /** `_criteria`, as far as the criteria modelled here go. */
    method CheckCriteria(acceptance: seq<Criterion>) returns (ok: bool)
      ensures ok <==> Demanding(acceptance)
    {
      for i := 0 to |acceptance|
        invariant forall k :: 0 <= k < i ==> !acceptance[k].required
      {
        if acceptance[i].required {
          return true;
        }
      }
      return false;
    }

    method CreateTask(task: nat, limit: nat, entity: Task) returns (r: Result<()>)
      requires entity.status == TaskStatus.Ready
      modifies this
      ensures Answers(old(Tables()), Tables(), r, Create(old(Tables()), task, limit, entity))
    {
      var demanding := CheckCriteria(entity.acceptance);
      if !demanding {
        return Err(InvalidArgument);
      }
      if task in tasks || task in ledger.budgets || limit > MAX_INT {
        return Err(InvalidArgument);
      }
      ledger := ledger.(budgets := ledger.budgets[task := Budget(task, Count(limit))]);
      var draft := entity.(status := TaskStatus.Draft);
      assert MayTask(TaskStatus.Draft, TaskStatus.Ready);
      tasks := tasks[task := draft.(status := TaskStatus.Ready)];
      return Ok(());
    }

    method AmendTask(task: nat, acceptance: seq<Criterion>) returns (r: Result<()>)
      modifies this`tasks
      ensures Answers(old(Tables()), Tables(), r, Amend(old(Tables()), task, acceptance))
    {
      if task !in tasks {
        return Err(NotFound);
      }
      var entity := tasks[task];
      if entity.status != TaskStatus.Ready {
        return Err(CapabilityUnsupported);
      }
      var demanding := CheckCriteria(acceptance);
      if !demanding {
        return Err(InvalidArgument);
      }
      entity := entity.(acceptance := acceptance);
      entity := entity.(contract := entity.contract + 1);
      tasks := tasks[task := entity];
      return Ok(());
    }

    /** `_start` and `_admit` in one transaction: the run, its lease, the reservation and the outbox row. */
    method StartRun(q: Request, env: Env) returns (r: Result<()>)
      requires q.attempt !in attempts
      modifies this
      ensures Answers(old(Tables()), Tables(), r, Start(old(Tables()), q, env))
    {
      if q.task !in tasks {
        return Err(NotFound);
      }
      var task := tasks[q.task];
      if task.status != (if q.previous.Some? then TaskStatus.Failed else TaskStatus.Ready) {
        return Err(InvalidArgument);
      }
      var retry := 1;
      if q.previous.Some? {
        var p := q.previous.value;
        if p !in attempts || attempts[p].run.task != q.task || attempts[p].run.status != RunStatus.Failed
           || task.active != Some(p)
        {
          return Err(InvalidArgument);
        }
        retry := attempts[p].run.retry + 1;
      }
      if q.configuration != env.configuration || task.configuration != env.configuration {
        return Err(RevisionConflict);
      }
      assert MayTask(task.status, TaskStatus.Active);
      task := task.(active := Some(q.attempt), status := TaskStatus.Active);
      var lease := Fencing.Claim(None, env.worker, env.now + LEASE_SECONDS, env.now).value;
      assert MayAssignment(AssignmentStatus.Pending, AssignmentStatus.Ready);
      var action := Action(ActionStatus.Planned, false, lease.token, false, false);
      var reserved := Reserve(ledger, q.attempt, Reservation1(q.task, q.attempt));
      if reserved.Err? {
        return Err(reserved.error);
      }
      assert MayAction(ActionStatus.Planned, ActionStatus.Admitted);
      action := action.(status := ActionStatus.Admitted);
      var outbox := Outbox.Enqueue(None, q.payload).value;
      var run := Run(q.task, retry, RunStatus.Queued, WantRunning, Runner, 1, false, lease, task.contract, q.configuration);
      attempts := attempts[q.attempt := Attempt(run, action, AssignmentStatus.Ready, Grant(true, q.expires, 0), outbox, lease)];
      ledger := reserved.value.0;
      tasks := tasks[q.task := task];
      return Ok(());
    }

    /** `run.pause`, `run.cancel`, `run.resume`, `run.takeover`, `run.return_control` and `grant.revoke`. */
    method CommandRun(n: nat, action: RunCommand, env: Env) returns (r: Result<()>)
      requires StateOk(Tables())
      modifies this
      ensures Answers(old(Tables()), Tables(), r, ControlRun(old(Tables()), n, action, env))
    {
      if n !in attempts || n !in ledger.reservations || attempts[n].run.task !in tasks {
        return Err(NotFound);
      }
      var d, v := Load(n);
      assert Sound(v);
      var changed := CommandTx(d.a, action, env, v);
      match changed
      case Err(error) => return Err(error);
      case Ok(a) =>
        assert ledger == Rewrite(ledger, n, ledger.reservations[n]);
        CommandMoves(v, action, env);
        Commit(n, d.(a := a), Effect(v.(a := a), None));
        return Ok(());
    }

    method PerformCommand(c: ControlRuns.Command, env: Env) returns (r: Result<()>)
      requires StateOk(Tables())
      modifies this
      ensures Answers(old(Tables()), Tables(), r, Perform(old(Tables()), c, env))
    {
      match c
      case CreateTask(task, limit, configuration, acceptance) =>
        r := CreateTask(task, limit, Task(TaskStatus.Ready, 1, configuration, None, acceptance));
      case AmendTask(task, acceptance) => r := AmendTask(task, acceptance);
      case StartRun(request) =>
        if request.attempt in attempts {
          return Err(InvalidArgument);
        }
        r := StartRun(request, env);
      case Control(n, action) => r := CommandRun(n, action, env);
    }

    /** The command envelope: replay, conflict, expiry, then the command and its record together. */
    method Submit(key: nat, digest: nat, expires: int, c: ControlRuns.Command, env: Env) returns (r: Result<()>)
      requires StateOk(Tables())
      modifies this
      ensures Tables() == AfterSubmit(old(Tables()), key, digest, expires, c, env)
      ensures StateOk(Tables())
    {
      SubmitKeeps(Tables(), key, digest, expires, c, env);
      if key in operations {
        if operations[key] != digest {
          return Err(IdempotencyConflict);
        }
        return Ok(());
      }
      if expires <= env.now {
        return Err(InvalidArgument);
      }
      r := PerformCommand(c, env);
      if r.Ok? {
        operations := operations[key := digest];
      }
    }

    // -------------------------------------------------------------- advance

    /** One thing the executor or an adapter does. */
    method ForeignEvent(n: nat, event: Outside, env: Env)
      requires n in attempts ==> Known(Tables(), n)
      modifies this
      ensures Tables() == AfterOutside(old(Tables()), n, event, env)
      ensures n in old(attempts) ==> Known(Tables(), n)
      ensures n in attempts ==> n in old(attempts)
    {
      if n in attempts {
        var d, v := Load(n);
        var w := Outer(LoadedView(n), event, d.task, env);
        OuterStays(LoadedView(n), event, d.task, env);
        Store(n, w);
      }
    }

    /** A foreign call: whatever the executor and its adapters did while it lasted. */
    method ForeignCall(n: nat, events: seq<Outside>, env: Env)
      requires n in attempts ==> Known(Tables(), n)
      modifies this
      ensures Tables() == Called(old(Tables()), n, events, env)
    {
      ghost var s := Tables();
      for i := 0 to |events|
        invariant n in attempts ==> Known(Tables(), n)
        invariant Tables() == Called(s, n, events[..i], env)
      {
        assert events[..i + 1][..i] == events[..i];
        ForeignEvent(n, events[i], env);
      }
      assert events[..|events|] == events;
    }

    function LoadedView(n: nat): View
      requires n in attempts && n in ledger.reservations
      reads this
    {
      View(attempts[n], ledger.reservations[n], if n in legacy then Some(legacy[n]) else None,
           calling == Some(n), n in sending)
    }

    method Store(n: nat, v: View)
      requires Known(Tables(), n)
      modifies this
      ensures Tables() == Put(old(Tables()), n, v)
    {
      attempts := attempts[n := v.a];
      ledger := Rewrite(ledger, n, v.r);
      if v.legacy.Some? {
        legacy := legacy[n := v.legacy.value];
      }
      calling := if v.calling then Some(n) else if calling == Some(n) then None else calling;
      sending := if v.sending then sending + {n} else sending - {n};
    }

    predicate IsLive(n: nat)
      reads this
    {
      n in attempts && n in ledger.reservations && attempts[n].run.task in tasks
      && !ActionOver(attempts[n].action.status) && !RunOver(attempts[n].run.status)
    }

    /** `_observe`. */
    method Observe(n: nat, env: Env, cancel: seq<Outside>, reconcile: seq<Outside>) returns (r: Result<()>)
      requires StateOk(Tables())
      modifies this
      ensures Tables() == Observation(old(Tables()), n, env, cancel, reconcile).s
      ensures r == Answer(Observation(old(Tables()), n, env, cancel, reconcile).error)
    {
      if IsLive(n) && n in legacy && Undelivered(legacy[n]) && attempts[n].run.desired == WantPaused {
        r := ObservePause(n, env);
      } else {
        FlagUnsent(n);
        AskCancel(n, env, cancel);
        LookUp(n, env, reconcile);
        r := Conclude1(n, env);
      }
    }

    /** A cancellation the executor has not taken yet is remembered as such. */
    method FlagUnsent(n: nat)
      requires StateOk(Tables())
      modifies this
      ensures StateOk(Tables()) && Tables() == AfterFlag(old(Tables()), n)
    {
      if IsLive(n) && n in legacy && Undelivered(legacy[n]) && attempts[n].run.desired == WantCanceled {
        MarkNotDeliveredKeeps(Tables(), n);
        FlagNotDelivered(n);
      }
    }

    method AskCancel(n: nat, env: Env, cancel: seq<Outside>)
      requires StateOk(Tables())
      modifies this
      ensures StateOk(Tables()) && Tables() == Asked(old(Tables()), n, env, cancel)
    {
      if n in legacy && n in attempts && attempts[n].run.desired == WantCanceled
         && !LegacyOver(legacy[n].status) && !legacy[n].cancelRequested
      {
        CallOut(n, cancel, env);
      }
    }

    method LookUp(n: nat, env: Env, reconcile: seq<Outside>)
      requires StateOk(Tables())
      modifies this
      ensures StateOk(Tables()) && Tables() == Looked(old(Tables()), n, env, reconcile)
    {
      if n in legacy && legacy[n].status == LegacyStatus.PendingReconcile {
        CallOut(n, reconcile, env);
      }
    }

    /** A foreign call made in a state that keeps the invariant. */
    method CallOut(n: nat, events: seq<Outside>, env: Env)
      requires StateOk(Tables())
      modifies this
      ensures StateOk(Tables()) && Tables() == Called(old(Tables()), n, events, env)
    {
      ghost var s := Tables();
      ghost var steps := CalledRuns(s, n, events, env);
      TurnKeeps(s, steps, Called(s, n, events, env));
      ForeignCall(n, events, env);
    }

    /** The concluding transaction of `_observe`. */
    method Conclude1(n: nat, env: Env) returns (r: Result<()>)
      requires StateOk(Tables())
      modifies this
      ensures Tables() == AfterConclude(old(Tables()), n, env)
      ensures r == Answer(ConcludeError(old(Tables()), n, env))
    {
      if IsLive(n) && n in legacy {
        r := ConcludeObservation(n, env);
      } else {
        r := Ok(());
      }
    }

    /** `_not_applied`, when the intent is proven absent. */
    method Absent(n: nat, env: Env) returns (r: Result<()>)
      requires StateOk(Tables())
      modifies this
      ensures Tables() == Absence(old(Tables()), n, env).s
      ensures r == Answer(Absence(old(Tables()), n, env).error)
    {
      if IsLive(n) && n !in legacy && attempts[n].action.dispatched && calling != Some(n) {
        r := ResolveAbsent(n, env);
      } else {
        r := Ok(());
      }
    }

    /** `_dispatch`. */
    method Deliver(n: nat, env: Env, f: Foreign) returns (r: Result<()>)
      requires StateOk(Tables())
      modifies this
      ensures Tables() == Delivery(old(Tables()), n, env, f).s
      ensures r == Answer(Delivery(old(Tables()), n, env, f).error)
    {
      if !f.slot {
        return Ok(());
      }
      var called := Dispatch(n, env);
      if !called {
        return Ok(());
      }
      CallOut(n, f.submission + [EndCall], env);
      r := Follow(n, env, f);
    }

    method Follow(n: nat, env: Env, f: Foreign) returns (r: Result<()>)
      requires StateOk(Tables())
      modifies this
      ensures Tables() == Aftermath(old(Tables()), n, env, f).s
      ensures r == Answer(Aftermath(old(Tables()), n, env, f).error)
    {
      if n in legacy {
        r := Observe(n, env, f.cancel, f.reconcile);
      } else if f.raised {
        r := Absent(n, env);
      } else {
        r := Ok(());
      }
    }

    method Dispatch(n: nat, env: Env) returns (called: bool)
      requires StateOk(Tables())
      modifies this
      ensures StateOk(Tables()) && Tables() == AfterDispatch(old(Tables()), n, env)
      ensures called <==> Calls(old(Tables()), n, env)
    {
      called := false;
      if IsLive(n) && n !in legacy && !attempts[n].action.dispatched && attempts[n].run.desired == WantRunning && calling == None {
        DispatchStepKeeps(Tables(), n, env);
        called := DispatchOrDeny(n, env);
      }
    }

    /** One Action's turn in `advance`. */
    method AdvanceOne(n: nat, env: Env, f: Foreign) returns (r: Result<()>)
      requires StateOk(Tables())
      modifies this
      ensures Tables() == ActionTurn(old(Tables()), n, env, f).s
      ensures r == Answer(ActionTurn(old(Tables()), n, env, f).error)
    {
      if !IsLive(n) {
        return Ok(());
      }
      TakeKeeps(Tables(), n, env);
      r := TakeOwnership(n, env);
      if r.Err? {
        return if r.error == LeaseLost || r.error == LeaseConflict then Ok(()) else r;
      }
      r := AdvanceOwned(n, env, f);
    }

    method AdvanceOwned(n: nat, env: Env, f: Foreign) returns (r: Result<()>)
      requires StateOk(Tables())
      modifies this
      ensures Tables() == OwnedTurn(old(Tables()), n, env, f).s
      ensures r == Answer(OwnedTurn(old(Tables()), n, env, f).error)
    {
      if !IsLive(n) {
        r := Ok(());
      } else if n in legacy {
        r := Observe(n, env, f.cancel, f.reconcile);
      } else if attempts[n].action.dispatched {
        r := Absent(n, env);
      } else if attempts[n].run.desired != WantRunning {
        ControlUndelivered(n);
        r := Ok(());
      } else {
        r := Deliver(n, env, f);
      }
    }

    /** `advance`: the Actions in order, up to the first turn that an error leaves. */
    method Advance(order: seq<nat>, envs: seq<Env>, foreigns: seq<Foreign>) returns (r: Result<()>)
      requires StateOk(Tables()) && |order| == |envs| == |foreigns|
      modifies this
      ensures Tables() == Poll(old(Tables()), order, envs, foreigns).s && StateOk(Tables())
      ensures r == Answer(Poll(old(Tables()), order, envs, foreigns).error)
    {
      ghost var all := Poll(Tables(), order, envs, foreigns);
      for i := 0 to |order|
        invariant StateOk(Tables()) && Poll(Tables(), order[i..], envs[i..], foreigns[i..]) == all
      {
        assert order[i..][1..] == order[i + 1..] && envs[i..][1..] == envs[i + 1..];
        assert foreigns[i..][1..] == foreigns[i + 1..];
        r := AdvanceKept(order[i], envs[i], foreigns[i]);
        if r.Err? {
          return;
        }
      }
      r := Ok(());
    }

    /** A turn keeps the invariant. */
    method AdvanceKept(n: nat, env: Env, f: Foreign) returns (r: Result<()>)
      requires StateOk(Tables())
      modifies this
      ensures StateOk(Tables()) && Tables() == ActionTurn(old(Tables()), n, env, f).s
      ensures r == Answer(ActionTurn(old(Tables()), n, env, f).error)
    {
      ghost var s := Tables();
      ghost var steps := ActionTurnRuns(s, n, env, f);
      TurnKeeps(s, steps, ActionTurn(s, n, env, f).s);
      r := AdvanceOne(n, env, f);
    }
  }

  lemma OuterStays(v: View, event: Outside, task: Task, env: Env)
    ensures Outer(v, event, task, env).a.run.task == v.a.run.task
  {
  }

  /** `run.pause`. */
  method PauseCommand(start: Run) returns (r: Result<Run>)
    ensures RunOver(start.status) || start.desired == WantCanceled ==> r == Err(InvalidArgument)
    ensures !RunOver(start.status) && start.desired != WantCanceled && start.status != RunStatus.Canceling ==>
              r == Ok(start.(desired := WantPaused,
                             status := if start.status == RunStatus.Paused then RunStatus.Paused else RunStatus.Pausing))
  {
    if RunOver(start.status) || start.desired == WantCanceled {
      return Err(InvalidArgument);
    }
    var run := start.(desired := WantPaused);
    if run.status != RunStatus.Pausing && run.status != RunStatus.Paused {
      run :- TransitionRun(run, RunStatus.Pausing);
    }
    return Ok(run);
  }

  /** `_resume`: only a paused run under an unchanged configuration goes back to work. */
  method ResumeCommand(start: Run, env: Env) returns (r: Result<Run>)
    ensures start.status == RunStatus.Paused ==>
              r == if start.configuration != env.configuration then Err(RevisionConflict)
                   else Ok(start.(desired := WantRunning, status := RunStatus.Reconciling))
  {
    if start.configuration != env.configuration {
      return Err(RevisionConflict);
    }
    r := TransitionRun(start.(desired := WantRunning), RunStatus.Reconciling);
  }

  /** One control command on the run (or grant) it names. */
  method CommandTx(start: Attempt, command: RunCommand, env: Env, ghost v: View) returns (r: Result<Attempt>)
    ensures Sound(v) && v.a == start ==>
              match ControlSpec.Command(v, command, env)
              case Ok(w) => r == Ok(w.a) && w == v.(a := w.a)
              case Err(error) => r == Err(error)
  {
    var run := start.run;
    match command {
    case PauseRun =>
      run :- PauseCommand(run);
    case CancelRun =>
      if RunOver(run.status) {
        return Err(InvalidArgument);
      }
      run := run.(desired := WantCanceled);
      assert run.status == RunStatus.Canceling || MayRun(run.status, RunStatus.Canceling);
      run := run.(status := RunStatus.Canceling);
    case ResumeRun =>
      if run.desired != WantPaused || run.status != RunStatus.Paused || run.owner != Runner {
        return Err(InvalidArgument);
      }
      run :- ResumeCommand(run, env);
    case TakeoverRun =>
      run :- PauseCommand(run);
      run := run.(takeover := true);
    case ReturnRun =>
      if run.owner != Human || run.status != RunStatus.Paused {
        return Err(InvalidArgument);
      }
      run := run.(owner := Runner, epoch := run.epoch + 1, takeover := false);
      run :- ResumeCommand(run, env);
    case RevokeGrant =>
      return Ok(start.(grant := start.grant.(active := false)));
    }
    return Ok(start.(run := run));
  }

  lemma ConcludeOnlyRows(v: View, task: Task, env: Env)
    requires v.legacy.Some? && Conclude(v, task, env).Ok?
    ensures var e := Conclude(v, task, env).value; e.v == v.(a := e.v.a, r := e.v.r)
  {
  }

  /** What a conclusion under fresh ownership leaves alone. */
  lemma ConcludedRows(v: View, w: View, task: Task, env: Env)
    requires Own(v.a, env).Ok? && w == v.(a := Own(v.a, env).value)
    requires w.legacy.Some? && Conclude(w, task, env).Ok?
    ensures var e := Conclude(w, task, env).value;
            e.v == v.(a := e.v.a, r := e.v.r) && e.v.a.run.task == v.a.run.task && SameClaimant(e.v.r, v.r)
  {
    OwnKeepsTask(v.a, env);
    ConcludeFrame(w, task, env);
    ConcludeOnlyRows(w, task, env);
  }

  lemma OwnKeepsTask(a: Attempt, env: Env)
    requires Own(a, env).Ok?
    ensures Own(a, env).value.run.task == a.run.task
  {
  }
}
