/** One poll of the control runtime: what an Action's turn in `advance` does, in which order, and when an
    error ends the poll. Every turn is a run of the steps of `ControlRuns`. */
module ControlTurns {
  import opened Wrappers
  import opened ControlLedger
  import opened ControlEntities
  import opened ControlSpec
  import opened ControlRuns

  /** What one Action's turn cannot see in advance: a free slot, and how its foreign calls go. */
  datatype Foreign = Foreign(slot: bool, submission: seq<Outside>, raised: bool, cancel: seq<Outside>,
                             reconcile: seq<Outside>)

  /** The state a turn leaves and the error that leaves it, if one does. */
  datatype Turn = Turn(s: State, error: Option<Error>)

  // -------------------------------------------------------------- the parts of a turn

  /** A foreign call: what the executor and its adapters did while it lasted. */
  function Called(s: State, n: nat, events: seq<Outside>, env: Env): State {
    if events == [] then s
    else AfterOutside(Called(s, n, events[..|events| - 1], env), n, events[|events| - 1], env)
  }

  predicate WantsCancel(s: State, n: nat) {
    n in s.legacy && n in s.attempts && s.attempts[n].run.desired == WantCanceled
    && !LegacyOver(s.legacy[n].status) && !s.legacy[n].cancelRequested
  }

  predicate WantsReconcile(s: State, n: nat) {
    n in s.legacy && s.legacy[n].status == LegacyStatus.PendingReconcile
  }

  function OwnError(s: State, n: nat, env: Env): Option<Error> {
    if !Known(s, n) then None
    else match Owned(s, n, env) case Ok(_) => None case Err(error) => Some(error)
  }

  /** The error of the concluding transaction: refused ownership or a refused status edge. */
  function ConcludeError(s: State, n: nat, env: Env): Option<Error> {
    if !Watched(s, n) then None
    else
      match Owned(s, n, env)
      case Err(error) => Some(error)
      case Ok(v) => match Conclude(v, TaskOf(s, n), env) case Ok(_) => None case Err(error) => Some(error)
  }

  predicate PausesUnsent(s: State, n: nat) {
    Watched(s, n) && Undelivered(s.legacy[n]) && s.attempts[n].run.desired == WantPaused
  }

  /** Cancellation is asked for once, while the record is still open. */
  function Asked(s: State, n: nat, env: Env, cancel: seq<Outside>): State {
    if WantsCancel(s, n) then Called(s, n, cancel, env) else s
  }

  /** An unresolved record is looked up again. */
  function Looked(s: State, n: nat, env: Env, reconcile: seq<Outside>): State {
    if WantsReconcile(s, n) then Called(s, n, reconcile, env) else s
  }

  /** `_observe`: answer a pause of an undelivered intent at once; otherwise flag an undelivered
      cancellation, ask for cancellation, ask for reconciliation, and conclude from the record. */
  function Observation(s: State, n: nat, env: Env, cancel: seq<Outside>, reconcile: seq<Outside>): Turn {
    if PausesUnsent(s, n) then Turn(AfterPauseObserved(s, n, env), OwnError(s, n, env))
    else
      var looked := Looked(Asked(AfterFlag(s, n), n, env, cancel), n, env, reconcile);
      Turn(AfterConclude(looked, n, env), ConcludeError(looked, n, env))
  }

  /** `_not_applied` after the intent is proven absent. */
  function Absence(s: State, n: nat, env: Env): Turn {
    Turn(AfterAbsent(s, n, env), if IntentAbsent(s, n) then OwnError(s, n, env) else None)
  }

  predicate Calls(s: State, n: nat, env: Env) {
    MayDispatch(s, n) && GuardRefusal(s.attempts[n], TaskOf(s, n), env, false) == None
  }

  /** What follows a submission call. */
  function Aftermath(s: State, n: nat, env: Env, f: Foreign): Turn {
    if n in s.legacy then Observation(s, n, env, f.cancel, f.reconcile)
    else if f.raised then Absence(s, n, env)
    else Turn(s, None)
  }

  /** `_dispatch`: nothing without a free slot; else the transaction (or its denial), the submission call
      and what its outcome shows. */
  function Delivery(s: State, n: nat, env: Env, f: Foreign): Turn {
    if !f.slot then Turn(s, None)
    else if !Calls(s, n, env) then Turn(AfterDispatch(s, n, env), None)
    else Aftermath(Called(AfterDispatch(s, n, env), n, f.submission + [EndCall], env), n, env, f)
  }

  /** The case distinction of `advance` for an Action this process owns. */
  function OwnedTurn(s: State, n: nat, env: Env, f: Foreign): Turn {
    if !Live(s, n) then Turn(s, None)
    else if n in s.legacy then Observation(s, n, env, f.cancel, f.reconcile)
    else if s.attempts[n].action.dispatched then Absence(s, n, env)
    else if s.attempts[n].run.desired != WantRunning then Turn(AfterUndelivered(s, n), None)
    else Delivery(s, n, env, f)
  }

  /** One Action's turn: an Action that is over is skipped, and so is one whose lease is lost. */
  function ActionTurn(s: State, n: nat, env: Env, f: Foreign): Turn {
    if !Live(s, n) then Turn(s, None)
    else
      match OwnError(s, n, env)
      case Some(error) => Turn(s, if error == LeaseLost || error == LeaseConflict then None else Some(error))
      case None => OwnedTurn(AfterTake(s, n, env), n, env, f)
  }

  /** `advance`: the Actions in order, up to the first turn an error leaves; the later ones are skipped. */
  function Poll(s: State, order: seq<nat>, envs: seq<Env>, foreigns: seq<Foreign>): Turn
    requires |order| == |envs| == |foreigns|
    decreases |order|
  {
    if order == [] then Turn(s, None)
    else
      var turn := ActionTurn(s, order[0], envs[0], foreigns[0]);
      if turn.error.Some? then turn else Poll(turn.s, order[1..], envs[1..], foreigns[1..])
  }

  // -------------------------------------------------------------- a turn is a run of the model

  lemma {:induction false} ExecuteConcat(s: State, first: seq<Event>, second: seq<Event>)
    ensures Execute(s, first + second) == Execute(Execute(s, first), second)
    decreases |first|
  {
    if first == [] {
      assert first + second == second;
    } else {
      ExecuteConcat(Next(s, first[0].step, first[0].env), first[1..], second);
      assert (first + second)[1..] == first[1..] + second;
    }
  }

  lemma ExecuteOne(s: State, event: Event)
    ensures Execute(s, [event]) == Next(s, event.step, event.env)
  {
    assert Execute(s, [event]) == Execute(Next(s, event.step, event.env), []);
  }

  lemma CalledRuns(s: State, n: nat, events: seq<Outside>, env: Env) returns (steps: seq<Event>)
    ensures Execute(s, steps) == Called(s, n, events, env)
  {
    steps := [];
    if events != [] {
      steps := CalledRuns(s, n, events[..|events| - 1], env);
      var last := Event(OutsideStep(n, events[|events| - 1]), env);
      ExecuteConcat(s, steps, [last]);
      ExecuteOne(Execute(s, steps), last);
      steps := steps + [last];
    }
  }

  /** The call is made only when wanted. */
  lemma WantedRuns(s: State, n: nat, wanted: bool, events: seq<Outside>, env: Env) returns (steps: seq<Event>)
    ensures Execute(s, steps) == if wanted then Called(s, n, events, env) else s
  {
    if wanted {
      steps := CalledRuns(s, n, events, env);
    } else {
      steps := [];
    }
  }

  lemma ObservationRuns(s: State, n: nat, env: Env, cancel: seq<Outside>, reconcile: seq<Outside>)
    returns (steps: seq<Event>)
    ensures Execute(s, steps) == Observation(s, n, env, cancel, reconcile).s
  {
    if PausesUnsent(s, n) {
      steps := [Event(PauseObserved(n), env)];
      ExecuteOne(s, steps[0]);
    } else {
      var flag := [Event(MarkNotDelivered(n), env)];
      ExecuteOne(s, flag[0]);
      var flagged := Execute(s, flag);
      var ask := WantedRuns(flagged, n, WantsCancel(flagged, n), cancel, env);
      var asked := Execute(flagged, ask);
      var look := WantedRuns(asked, n, WantsReconcile(asked, n), reconcile, env);
      var looked := Execute(asked, look);
      var conclude := [Event(ConcludeStep(n), env)];
      ExecuteOne(looked, conclude[0]);
      ExecuteConcat(asked, look, conclude);
      ExecuteConcat(flagged, ask, look + conclude);
      ExecuteConcat(s, flag, ask + (look + conclude));
      steps := flag + (ask + (look + conclude));
    }
  }

  lemma AbsenceRuns(s: State, n: nat, env: Env) returns (steps: seq<Event>)
    ensures Execute(s, steps) == Absence(s, n, env).s
  {
    steps := [Event(AbsentIntent(n), env)];
    ExecuteOne(s, steps[0]);
  }

  lemma DeliveryRuns(s: State, n: nat, env: Env, f: Foreign) returns (steps: seq<Event>)
    ensures Execute(s, steps) == Delivery(s, n, env, f).s
  {
    steps := [];
    if f.slot {
      steps := [Event(DispatchStep(n), env)];
      ExecuteOne(s, steps[0]);
      if Calls(s, n, env) {
        var sent := Execute(s, steps);
        var call := CalledRuns(sent, n, f.submission + [EndCall], env);
        var called := Execute(sent, call);
        var after := AftermathRuns(called, n, env, f);
        ExecuteConcat(sent, call, after);
        ExecuteConcat(s, steps, call + after);
        steps := steps + (call + after);
      }
    }
  }

  lemma AftermathRuns(s: State, n: nat, env: Env, f: Foreign) returns (steps: seq<Event>)
    ensures Execute(s, steps) == Aftermath(s, n, env, f).s
  {
    if n in s.legacy {
      steps := ObservationRuns(s, n, env, f.cancel, f.reconcile);
    } else if f.raised {
      steps := AbsenceRuns(s, n, env);
    } else {
      steps := [];
    }
  }

  lemma OwnedTurnRuns(s: State, n: nat, env: Env, f: Foreign) returns (steps: seq<Event>)
    ensures Execute(s, steps) == OwnedTurn(s, n, env, f).s
  {
    if !Live(s, n) {
      steps := [];
    } else if n in s.legacy {
      steps := ObservationRuns(s, n, env, f.cancel, f.reconcile);
    } else if s.attempts[n].action.dispatched {
      steps := AbsenceRuns(s, n, env);
    } else if s.attempts[n].run.desired != WantRunning {
      steps := [Event(UndeliveredStep(n), env)];
      ExecuteOne(s, steps[0]);
    } else {
      steps := DeliveryRuns(s, n, env, f);
    }
  }

  lemma ActionTurnRuns(s: State, n: nat, env: Env, f: Foreign) returns (steps: seq<Event>)
    ensures Execute(s, steps) == ActionTurn(s, n, env, f).s
  {
    steps := [];
    if Live(s, n) && OwnError(s, n, env).None? {
      var take := [Event(ControlRuns.Take(n), env)];
      ExecuteOne(s, take[0]);
      var rest := OwnedTurnRuns(AfterTake(s, n, env), n, env, f);
      ExecuteConcat(s, take, rest);
      steps := take + rest;
    }
  }

  /** A whole poll is a run of the model, so every theorem about runs holds of it. */
  lemma PollRuns(s: State, order: seq<nat>, envs: seq<Env>, foreigns: seq<Foreign>) returns (steps: seq<Event>)
    requires |order| == |envs| == |foreigns|
    ensures Execute(s, steps) == Poll(s, order, envs, foreigns).s
    decreases |order|
  {
    steps := [];
    if order != [] {
      var turn := ActionTurn(s, order[0], envs[0], foreigns[0]);
      steps := ActionTurnRuns(s, order[0], envs[0], foreigns[0]);
      if turn.error.None? {
        var rest := PollRuns(turn.s, order[1..], envs[1..], foreigns[1..]);
        ExecuteConcat(s, steps, rest);
        steps := steps + rest;
      }
    }
  }

  /** An error ends the poll: what comes after the turn it leaves, in this poll's order, is not looked at. */
  lemma {:induction false} ErrorEndsPoll(s: State, order: seq<nat>, envs: seq<Env>, foreigns: seq<Foreign>, k: nat)
    requires |order| == |envs| == |foreigns| && k <= |order|
    requires Poll(s, order[..k], envs[..k], foreigns[..k]).error.Some?
    ensures Poll(s, order, envs, foreigns) == Poll(s, order[..k], envs[..k], foreigns[..k])
    decreases k
  {
    var turn := ActionTurn(s, order[0], envs[0], foreigns[0]);
    if turn.error.None? {
      assert order[..k][1..] == order[1..][..k - 1] && envs[..k][1..] == envs[1..][..k - 1];
      assert foreigns[..k][1..] == foreigns[1..][..k - 1];
      ErrorEndsPoll(turn.s, order[1..], envs[1..], foreigns[1..], k - 1);
    }
  }

  /** In particular a stuck attempt ends every poll at its place in the order. */
  lemma StuckEndsPoll(s: State, n: nat, env: Env, f: Foreign)
    requires Live(s, n) && Sound(ViewOf(s, n)) && OwnError(s, n, env).None? && Stuck(ViewOf(s, n))
    ensures ActionTurn(s, n, env, f).error == Some(InvalidArgument)
  {
    var v, t := ViewOf(s, n), AfterTake(s, n, env);
    StuckOwned(v, env, TaskOf(s, n));
    TakenView(s, n, env);
    OwnedView(t, n, env);
    StuckObservation(t, n, env, f.cancel, f.reconcile);
  }

  /** Taking ownership changes the attempt's own rows only. */
  lemma TakenView(s: State, n: nat, env: Env)
    requires Live(s, n) && n in s.legacy && OwnError(s, n, env).None?
    requires var a := Own(s.attempts[n], env).value;
             a.run.task == s.attempts[n].run.task && a.run.status == s.attempts[n].run.status
             && a.action.status == s.attempts[n].action.status
    ensures var t := AfterTake(s, n, env);
            && Watched(t, n) && TaskOf(t, n) == TaskOf(s, n)
            && ViewOf(t, n) == ViewOf(s, n).(a := Own(s.attempts[n], env).value)
  {
    var w := Owned(s, n, env).value;
    ViewPut(s, n, w, n);
    assert AfterTake(s, n, env) == Put(s, n, w);
  }

  lemma OwnedView(t: State, n: nat, env: Env)
    requires Known(t, n) && Own(ViewOf(t, n).a, env) == Ok(ViewOf(t, n).a)
    ensures Owned(t, n, env) == Ok(ViewOf(t, n))
  {
  }

  lemma StuckObservation(t: State, n: nat, env: Env, cancel: seq<Outside>, reconcile: seq<Outside>)
    requires Watched(t, n) && Owned(t, n, env) == Ok(ViewOf(t, n)) && Stuck(ViewOf(t, n))
    requires Conclude(ViewOf(t, n), TaskOf(t, n), env) == Err(InvalidArgument)
    ensures Observation(t, n, env, cancel, reconcile).error == Some(InvalidArgument)
  {
    assert !PausesUnsent(t, n) && !WantsCancel(t, n) && !WantsReconcile(t, n);
    assert Looked(Asked(AfterFlag(t, n), n, env, cancel), n, env, reconcile) == t;
  }

  lemma StuckOwned(v: View, env: Env, task: Task)
    requires Sound(v) && !Over(v) && Stuck(v) && Own(v.a, env).Ok?
    ensures var w := v.(a := Own(v.a, env).value);
            && Own(w.a, env) == Ok(w.a) && Conclude(w, task, env) == Err(InvalidArgument)
            && w.a.run.status == v.a.run.status && w.a.action.status == v.a.action.status
            && w.a.run.task == v.a.run.task
  {
    OwnTwice(v.a, env);
    OwnKeeps(v, env);
    var w := v.(a := Own(v.a, env).value);
    assert Sent(v) && Stuck(w);
    RefusedExactly(w, task, env, task, env);
  }

  lemma TurnKeeps(s: State, steps: seq<Event>, next: State)
    requires StateOk(s) && Execute(s, steps) == next
    ensures StateOk(next)
  {
    ExecuteKeeps(s, steps);
  }
}
