/** What one poll does for an attempt whose record is finished: it concludes it, in that very turn. */
module TurnOutcomes {
  import opened Wrappers
  import opened ControlLedger
  import opened ControlEntities
  import opened ControlSpec
  import opened ControlRuns
  import opened ControlTurns
  import opened ControlOutcomes

  /** Owning an attempt changes its lease and nothing that a verdict looks at. */
  predicate SameSubject(s: State, t: State, n: nat) {
    && t.tasks == s.tasks && t.legacy == s.legacy && n in s.attempts && n in t.attempts
    && t.attempts[n].run == s.attempts[n].run.(lease := t.attempts[n].run.lease)
    && t.attempts[n].action == s.attempts[n].action.(token := t.attempts[n].action.token)
  }

  lemma TakenSame(s: State, n: nat, env: Env)
    requires AttemptsSound(s) && Live(s, n) && OwnError(s, n, env).None?
    ensures SameSubject(s, AfterTake(s, n, env), n) && Live(AfterTake(s, n, env), n)
  {
    assert Sound(ViewOf(s, n));
    OwnFrame(s.attempts[n], env);
  }

  /** With a finished record there is nothing left to ask for, so the observation is the conclusion. */
  lemma FinishedObservation(t: State, n: nat, env: Env, cancel: seq<Outside>, reconcile: seq<Outside>)
    requires Watched(t, n) && Finished(t.legacy[n])
    ensures Observation(t, n, env, cancel, reconcile) == Turn(AfterConclude(t, n, env), ConcludeError(t, n, env))
  {
  }

  lemma FinishedOwned(t: State, n: nat, env: Env, f: Foreign)
    requires Watched(t, n) && Finished(t.legacy[n])
    ensures OwnedTurn(t, n, env, f) == Turn(AfterConclude(t, n, env), ConcludeError(t, n, env))
  {
    FinishedObservation(t, n, env, f.cancel, f.reconcile);
  }

  lemma TakenOwned(s: State, n: nat, env: Env)
    requires AttemptsSound(s) && Live(s, n) && OwnError(s, n, env).None?
    ensures Owned(AfterTake(s, n, env), n, env).Ok?
    ensures Owned(AfterTake(s, n, env), n, env).value == Owned(s, n, env).value
  {
    assert Sound(ViewOf(s, n));
    OwnTwice(s.attempts[n], env);
  }

  /** The refusals of a conclusion are those of a stuck attempt, and owning does not make one stuck. */
  lemma FinishedConcludes(s: State, n: nat, env: Env)
    requires StateOk(s) && Watched(s, n) && Finished(s.legacy[n]) && OwnError(s, n, env).None? && !Stuck(ViewOf(s, n))
    ensures var t := AfterTake(s, n, env);
            StateOk(t) && Concludes(t, n, env) && SameSubject(s, t, n)
  {
    var v := Owned(s, n, env).value;
    TakeKeeps(s, n, env);
    TakenSame(s, n, env);
    TakenOwned(s, n, env);
    WatchedSent(s, n, env);
    StillUnstuck(s, n, env);
    RefusedExactly(v, TaskOf(s, n), env, TaskOf(s, n), env);
  }

  lemma StillUnstuck(s: State, n: nat, env: Env)
    requires AttemptsSound(s) && Watched(s, n) && Owned(s, n, env).Ok? && !Stuck(ViewOf(s, n))
    ensures !Stuck(Owned(s, n, env).value)
  {
    assert Sound(ViewOf(s, n));
    OwnFrame(s.attempts[n], env);
  }

  /** The turn of an attempt whose record is finished, which this process can own and which is not stuck, raises
      nothing and tells its Task the verdict. */
  lemma FinishedIsConcluded(s: State, n: nat, env: Env, f: Foreign, turn: Turn)
    requires StateOk(s) && Watched(s, n) && Finished(s.legacy[n]) && OwnError(s, n, env).None? && !Stuck(ViewOf(s, n))
    requires turn == ActionTurn(s, n, env, f)
    ensures turn.error == None
    ensures Told(s, n, turn.s, TaskVerdict(s.attempts[n].run, TaskOf(s, n), s.legacy[n], env))
  {
    var t := AfterTake(s, n, env);
    FinishedConcludes(s, n, env);
    FinishedOwned(t, n, env, f);
    ConcludesCleanly(t, n, env);
    ConclusionTold(t, n, env, turn.s);
    SameVerdict(t.attempts[n].run, s.attempts[n].run, TaskOf(s, n), s.legacy[n], env);
  }

  lemma ConcludesCleanly(t: State, n: nat, env: Env)
    requires Concludes(t, n, env)
    ensures ConcludeError(t, n, env) == None
  {
  }

  /** An Action whose lease another worker holds, without the instance lock, is passed over: it stays as it is and
      the poll goes on. Only want of tokens can end a poll before the Action's turn began. */
  lemma PassedOver(s: State, n: nat, env: Env, f: Foreign)
    requires AttemptsSound(s) && Live(s, n)
    ensures s.attempts[n].lease.holder != Some(env.worker) && !env.locked ==> ActionTurn(s, n, env, f) == Turn(s, None)
    ensures OwnError(s, n, env).Some? && OwnError(s, n, env) != Some(LeaseLost) ==>
              ActionTurn(s, n, env, f) == Turn(s, Some(InvalidState)) && s.attempts[n].lease.token >= MAX_INT
  {
    assert Sound(ViewOf(s, n));
    OwnExact(s.attempts[n], env);
  }

  /** An Action in the outbox whose run is wanted stays there while no slot is free, and one that is not wanted any
      more never reaches the executor. */
  lemma UnsentTurn(s: State, n: nat, env: Env, f: Foreign)
    requires InOutbox(s, n) && (!f.slot || s.attempts[n].run.desired != WantRunning)
    ensures OwnedTurn(s, n, env, f)
         == Turn(if s.attempts[n].run.desired != WantRunning then AfterUndelivered(s, n) else s, None)
  {
  }

  /** Cancellation is asked for exactly while the record is open and was not asked before, and an unresolved record
      is looked up again; nothing else calls the executor about a record. */
  lemma AsksOnce(s: State, n: nat, env: Env, cancel: seq<Outside>, reconcile: seq<Outside>)
    requires Watched(s, n)
    ensures var open := s.legacy[n].status !in {LegacyStatus.Succeeded, LegacyStatus.Failed, LegacyStatus.Cancelled};
            Asked(s, n, env, cancel)
            == if s.attempts[n].run.desired == WantCanceled && open && !s.legacy[n].cancelRequested
               then Called(s, n, cancel, env) else s
    ensures Looked(s, n, env, reconcile)
         == if s.legacy[n].status == LegacyStatus.PendingReconcile then Called(s, n, reconcile, env) else s
  {
  }
}
