/** The verdict a check is shown with: over every history it is the one of the report that completed it. */
module CheckOutcomes {
  import opened Wrappers
  import opened CheckJobs
  import opened CheckCalls

  /** The report a completing step records. */
  function ReportOf(s: State, step: Step, id: nat): Update
    requires id in s.jobs && Completing(s, step, id)
  {
    if step.Deliver? then s.updates[0].1 else step.update
  }

  /** The verdict of the first step of the history that completes the job. */
  ghost function VerdictAlong(s: State, steps: seq<Step>, limit: nat, id: nat): Option<bool>
    requires Possible(s, steps, limit)
    decreases |steps|
  {
    if steps == [] then None
    else if id in s.jobs && Completing(s, steps[0], id) then Some(ReportOf(s, steps[0], id).passed)
    else VerdictAlong(Next(s, steps[0], limit), steps[1..], limit, id)
  }

  /** How a recorded report ends an undecided job in hand: a stop wins, an unfinished report is unknown, a
      completed one on moved evidence is stale, and only a completed one has a verdict. */
  lemma RecordedExactly(s: State, id: nat, u: Update, current: bool)
    requires id in s.jobs && id in s.active && !Finished(s.jobs[id].status) && s.jobs[id].passed == None
    ensures var d := Record(s, id, u, current);
            && id in d.jobs && id !in d.active
            && var stopped, a, z := s.active[id] || s.jobs[id].status == Cancelling, s.jobs[id], d.jobs[id];
               && z.run == a.run && z.key == a.key && z.request == a.request
               && (stopped ==> z.status == Cancelled)
               && (!stopped ==>
                     && (z.status == Completed <==> u.status == Completed && current)
                     && (z.status == StaleResult <==> u.status == StaleResult || (u.status == Completed && !current))
                     && (z.status == Unknown <==> u.status in {Unknown, Running, Cancelling})
                     && (z.status == FailedCheck <==> u.status == FailedCheck)
                     && (z.status == Cancelled <==> u.status == Cancelled))
               && z.passed == (if z.status == Completed then Some(u.passed) else None)
    ensures forall k :: k in s.jobs && k != id ==> k in Record(s, id, u, current).jobs
                                                   && Record(s, id, u, current).jobs[k] == s.jobs[k]
  {
  }

  /** An undecided job has no verdict; a step that completes it gives it the verdict of that step's report, and
      every other step leaves it without one. */
  predicate Verdictless(s: State, id: nat) {
    id in s.jobs ==> !Finished(s.jobs[id].status) && s.jobs[id].passed == None
  }

  lemma RecordGives(s: State, r: nat, u: Update, current: bool, id: nat)
    requires (r in s.active ==> r in s.jobs) && id in s.jobs && s.jobs[id].passed == None
    ensures var d := Record(s, r, u, current);
            id in d.jobs && d.jobs[id].passed
              == if r == id && r in s.active && d.jobs[id].status == Completed then Some(u.passed) else None
  {
  }

  lemma StepGives(s: State, step: Step, limit: nat, id: nat)
    requires StateOk(s, limit) && Enabled(s, step, limit) && id in s.jobs && Verdictless(s, id)
    ensures var t := Next(s, step, limit);
            id in t.jobs && t.jobs[id].passed
              == if Completing(s, step, id) then Some(ReportOf(s, step, id).passed) else None
  {
    CompletedExactly(s, step, limit, id);
    match step
    case Deliver(current, saved) =>
      RecordGives(s.(updates := s.updates[1..]), s.updates[0].0, s.updates[0].1, current, id);
    case LaunchHere(other, update, current, saved) =>
      RecordGives(Launched(s, other), other, update, current, id);
    case LaunchRefused(other, began, saved) =>
      RecordGives(if began then Launched(s, other) else InHand(s, other), other, Update(Unknown, false), false, id);
    case Abandon(other) =>
    case Cancel(other) =>
    case _ =>
  }

  lemma NewVerdictless(s: State, step: Step, limit: nat, id: nat)
    requires StateOk(s, limit) && Enabled(s, step, limit) && id !in s.jobs
    ensures Verdictless(Next(s, step, limit), id)
  {
  }

  lemma {:induction false} VerdictGiven(s: State, steps: seq<Step>, limit: nat, id: nat)
    requires StateOk(s, limit) && Possible(s, steps, limit) && Verdictless(s, id)
    ensures id in Execute(s, steps, limit).jobs
        ==> Execute(s, steps, limit).jobs[id].passed == VerdictAlong(s, steps, limit, id)
    decreases |steps|
  {
    if steps != [] {
      var t := Next(s, steps[0], limit);
      NextKeeps(s, steps[0], limit);
      if id in s.jobs {
        StepGives(s, steps[0], limit, id);
        CompletedExactly(s, steps[0], limit, id);
        if Finished(t.jobs[id].status) {
          FinishedForGood(t, steps[1..], limit, id);
          FinishedGivesNone(t, steps[1..], limit, id);
        } else {
          VerdictGiven(t, steps[1..], limit, id);
        }
      } else {
        NewVerdictless(s, steps[0], limit, id);
        VerdictGiven(t, steps[1..], limit, id);
      }
    }
  }

  lemma {:induction false} FinishedGivesNone(s: State, steps: seq<Step>, limit: nat, id: nat)
    requires StateOk(s, limit) && Possible(s, steps, limit) && id in s.jobs && Finished(s.jobs[id].status)
    ensures VerdictAlong(s, steps, limit, id) == None
    decreases |steps|
  {
    if steps != [] {
      assert !Completing(s, steps[0], id);
      NextKeeps(s, steps[0], limit);
      assert Follows(s.jobs[id], Next(s, steps[0], limit).jobs[id]);
      FinishedGivesNone(Next(s, steps[0], limit), steps[1..], limit, id);
    }
  }

  /** Over every history, restarts included, a job that is shown completed is shown with exactly the verdict of
      the report that completed it, and a job shown in any other state with none. */
  lemma ShownVerdict(s: State, steps: seq<Step>, limit: nat, id: nat, current: bool)
    requires StateOk(s, limit) && Possible(s, steps, limit) && Verdictless(s, id)
    requires id in Execute(s, steps, limit).jobs
    ensures var shown := View(Execute(s, steps, limit).jobs[id], current);
            && (shown.status == Completed ==> shown.passed.Some? && shown.passed == VerdictAlong(s, steps, limit, id))
            && (shown.status != Completed ==> shown.passed == None)
  {
    VerdictGiven(s, steps, limit, id);
    CompletedAlong(s, steps, limit, id);
    VerdictIsCompletion(s, steps, limit, id);
  }

  lemma {:induction false} VerdictIsCompletion(s: State, steps: seq<Step>, limit: nat, id: nat)
    requires Possible(s, steps, limit)
    ensures VerdictAlong(s, steps, limit, id).Some? <==> CompletesAlong(s, steps, limit, id)
    decreases |steps|
  {
    if steps != [] {
      VerdictIsCompletion(Next(s, steps[0], limit), steps[1..], limit, id);
    }
  }

  // -------------------------------------------------------------- what a submission answers

  lemma LaunchedExactly(s: State, id: nat, how: How, limit: nat)
    requires s.submitting == Some(id) && id in s.jobs && Handy(s) && id !in s.launches
    requires s.jobs[id].status == Running && s.jobs[id].passed.None?
    ensures var t := Next(s, how.Step(id), limit);
            && t.jobs.Keys == s.jobs.Keys && LaunchesOf(t, id) == (if how.BackgroundFails? && !how.began then 0 else 1)
            && (how.Background? ==> t.jobs == s.jobs && id in t.active && id in t.workers)
            && (how.BackgroundFails? && how.saved ==> t.jobs[id].status == Unknown && id !in t.active)
            && forall k :: k in s.jobs && k != id ==> t.jobs[k] == s.jobs[k]
    ensures var z := Next(s, how.Step(id), limit).jobs[id];
            && z.run == s.jobs[id].run && z.key == s.jobs[id].key && z.request == s.jobs[id].request
            && (PlacedAnswer(z, how).Ok? <==>
                  || how.Background?
                  || (how.InPlace? && how.saved
                      && (how.update.status == Cancelled || (how.update.status == Completed && how.current))))
  {
  }

  /** A started job is stored as asked, and its start is counted once, if it really began. Its caller is given the
      job when it runs in the background, or when it ended here completed on current evidence or cancelled;
      otherwise only that the outcome is unknown. */
  lemma PlacedExactly(s: State, id: nat, job: Job, how: How, limit: nat)
    requires Enabled(s, Intend(id, job), limit) && Handy(s) && id !in s.launches
    ensures var t := Placed(s, id, job, how, limit);
            && id in t.jobs && t.jobs[id].run == job.run && t.jobs[id].key == job.key && t.jobs[id].request == job.request
            && LaunchesOf(t, id) == (if how.BackgroundFails? && !how.began then 0 else 1)
            && (how.Background? ==> t.jobs[id].status == Running && id in t.active && id in t.workers)
            && (how.BackgroundFails? && how.saved ==> t.jobs[id].status == Unknown && id !in t.active)
            && (PlacedAnswer(t.jobs[id], how) in {Ok(t.jobs[id]), Err(UnknownRemote)})
    ensures PlacedAnswer(Placed(s, id, job, how, limit).jobs[id], how).Ok? <==>
              || how.Background?
              || (how.InPlace? && how.saved
                  && (how.update.status == Cancelled || (how.update.status == Completed && how.current)))
    ensures forall k :: k in s.jobs ==> k in Placed(s, id, job, how, limit).jobs
                                        && Placed(s, id, job, how, limit).jobs[k] == s.jobs[k]
  {
    LaunchedExactly(Next(s, Intend(id, job), limit), id, how, limit);
  }

  /** What a submission that reached the table `d` was answered with. */
  ghost predicate AnsweredFrom(d: State, t: State, answer: Result<Job>, id: nat, job: Job, how: How, stored: bool,
                               limit: nat)
  {
    && (answer.Ok? ==>
          answer.value.run == job.run && answer.value.key == job.key && answer.value.request == job.request)
    && (answer == Err(IdempotencyConflict) ==> exists k :: Matches(d.jobs, k, job) && d.jobs[k].request != job.request)
    && (answer == Err(UnknownRemote) || t != d ==>
          && stored && Handy(d) && Enabled(d, Intend(id, job), limit)
          && t == Placed(d, id, job, how, limit))
  }

  lemma AcceptanceAnswered(d: State, t: State, answer: Result<Job>, id: nat, job: Job, how: How, stored: bool,
                           current: bool, limit: nat)
    requires Handy(d) && job.status == Running && job.passed.None? && d.submitting.None? && id !in d.jobs
    requires id !in d.launches && Accepts(d, t, answer, id, job, how, stored, current, limit)
    ensures AnsweredFrom(d, t, answer, id, job, how, stored, limit)
  {
    if Enabled(d, Intend(id, job), limit) && stored {
      PlacedExactly(d, id, job, how, limit);
    }
  }

  /** A known key is answered from its job, as it is shown now, exactly if the request is the same; an unknown one is
      refused only for want of room or of the intent's write. */
  lemma KnownKeyAnswered(d: State, t: State, answer: Result<Job>, id: nat, job: Job, how: How, stored: bool,
                         current: bool, limit: nat)
    requires Handy(d) && job.status == Running && job.passed.None? && d.submitting.None? && id !in d.jobs
    requires Accepts(d, t, answer, id, job, how, stored, current, limit)
    ensures KeyTaken(d.jobs, job.run, job.key) ==>
              && t == d
              && (exists k :: Matches(d.jobs, k, job)
                    && answer == if d.jobs[k].request == job.request then Ok(View(d.jobs[k], current))
                                 else Err(IdempotencyConflict))
    ensures !KeyTaken(d.jobs, job.run, job.key) && (|JobsOf(d.jobs, job.run)| >= MAX_JOBS || |d.active| >= limit) ==>
              t == d && answer == Err(RateLimited)
    ensures !KeyTaken(d.jobs, job.run, job.key) && |JobsOf(d.jobs, job.run)| < MAX_JOBS && |d.active| < limit && !stored ==>
              t == d && answer == Err(InvalidState)
  {
  }

  /** A submission that is answered shows a job of this very run, key and request; a conflict means that the key
      is bound to another request; only a job stored as new changes the table or has its outcome called unknown. */
  lemma SubmissionAnswered(s: State, t: State, answer: Result<Job>, id: nat, job: Job, how: How, resident: bool,
                           stored: bool, current: bool, answers: seq<Answer>, alive: set<nat>, limit: nat)
    requires |s.updates| <= |answers| && Handy(s) && job.status == Running && job.passed.None?
    requires s.submitting.None? && id !in s.jobs && id !in Drained(s, answers, alive).s.launches
    requires Submitted(s, t, answer, id, job, how, resident, stored, current, answers, alive, limit)
    ensures AnsweredFrom(Drained(s, answers, alive).s, t, answer, id, job, how, stored, limit)
  {
    var d := Drained(s, answers, alive);
    if !d.failed && (how.InPlace? || (resident && job.key.Some?)) {
      AcceptanceAnswered(d.s, t, answer, id, job, how, stored, current, limit);
    }
  }

  /** After a restart exactly the undecided jobs are unknown, without a verdict of their own, and nothing is in
      hand; giving a job up says no more of it either. */
  lemma RestartMarks(s: State, limit: nat, id: nat)
    requires StateOk(s, limit) && id in s.jobs
    ensures var t := Next(s, Restart, limit);
            && t.active == map[] && t.updates == [] && t.launches == s.launches && t.jobs.Keys == s.jobs.Keys
            && (s.jobs[id].status in {Running, Cancelling} ==> t.jobs[id] == s.jobs[id].(status := Unknown))
            && (s.jobs[id].status !in {Running, Cancelling} ==> t.jobs[id] == s.jobs[id])
    ensures Enabled(s, Abandon(id), limit) ==>
              var t := Next(s, Abandon(id), limit);
              t.jobs == s.jobs[id := s.jobs[id].(status := Unknown)] && id !in t.active
  {
  }
}
