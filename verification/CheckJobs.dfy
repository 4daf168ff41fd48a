/** Local check jobs: an intent persisted before anything starts, a result recorded by the core, a
    cancel that races with the result, and a restart that only marks what is undecided. */
module CheckJobs {
  import opened Wrappers

  const MAX_JOBS: nat := 32

  datatype Status = Running | Cancelling | Completed | Cancelled | StaleResult | FailedCheck | Unknown

  /** `key` is the caller's idempotency key, `request` the digest of what was asked. */
  datatype Job = Job(run: nat, status: Status, key: Option<nat>, request: nat, passed: Option<bool>)

  /** What a worker reports; a status outside the five finished ones counts as none. */
  datatype Update = Update(status: Status, passed: bool)

  /** `active` maps a job in hand to its stop event; `workers` are the executor's threads and `updates`
      what they have published; `submitting` is a job whose intent is stored and not yet started;
      `launches` counts how often each job was really started. */
  datatype State = State(jobs: map<nat, Job>, active: map<nat, bool>, updates: seq<(nat, Update)>, workers: set<nat>,
                         submitting: Option<nat>, launches: map<nat, nat>)

  datatype Step =
    | Intend(id: nat, job: Job)
    | LaunchAsync(id: nat)
    | LaunchRefused(id: nat, began: bool, saved: bool)
    | LaunchHere(id: nat, update: Update, current: bool, saved: bool)
    | Publish(id: nat, update: Update)
    | Deliver(current: bool, saved: bool)
    | Reap(alive: set<nat>)
    | Cancel(id: nat)
    | StopAll
    | Abandon(id: nat)
    | Restart

  predicate Finished(s: Status) {
    s != Running && s != Cancelling
  }

  /** `record`: the status a report ends with. */
  function Recorded(job: Job, stop: bool, u: Update, current: bool): Job {
    var status := if job.status == Cancelling || stop then Cancelled
                  else if !Finished(u.status) then Unknown
                  else if u.status == Completed && !current then StaleResult
                  else u.status;
    job.(status := status, passed := if status == Completed then Some(u.passed) else None)
  }

  function Record(s: State, id: nat, u: Update, current: bool): State
    requires id in s.active ==> id in s.jobs
  {
    if id !in s.active then s
    else s.(jobs := s.jobs[id := Recorded(s.jobs[id], s.active[id], u, current)], active := s.active - {id})
  }

  function Lost(job: Job): Job {
    job.(status := Unknown)
  }

  /** A job nobody will report on: it is unknown and no longer in hand. */
  function Dropped(s: State, id: nat): State
    requires id in s.jobs
  {
    s.(jobs := s.jobs[id := Lost(s.jobs[id])], active := s.active - {id})
  }

  /** `restore`: after a restart undecided jobs are unknown. */
  function Restored(job: Job): Job {
    if Finished(job.status) then job else Lost(job)
  }

  function LaunchesOf(s: State, id: nat): nat {
    if id in s.launches then s.launches[id] else 0
  }

  /** The job being submitted is put into the active table. */
  function InHand(s: State, id: nat): State {
    s.(submitting := None, active := s.active[id := false])
  }

  function Launched(s: State, id: nat): State {
    InHand(s, id).(launches := s.launches[id := LaunchesOf(s, id) + 1])
  }

  function JobsOf(jobs: map<nat, Job>, run: nat): set<nat> {
    set id | id in jobs && jobs[id].run == run
  }

  /** A key already bound to a job of the same run. */
  predicate KeyTaken(jobs: map<nat, Job>, run: nat, key: Option<nat>) {
    key.Some? && exists id :: id in jobs && jobs[id].run == run && jobs[id].key == key
  }

  predicate Enabled(s: State, step: Step, limit: nat) {
    match step
    case Intend(id, job) =>
      && s.submitting.None? && id !in s.jobs && job.status == Running && job.passed.None?
      && !KeyTaken(s.jobs, job.run, job.key) && |JobsOf(s.jobs, job.run)| < MAX_JOBS && |s.active| < limit
    case LaunchAsync(id) => s.submitting == Some(id)
    case LaunchRefused(id, _, _) => s.submitting == Some(id)
    case LaunchHere(id, _, _, _) => s.submitting == Some(id)
    case Publish(id, _) => id in s.workers
    case Deliver(_, _) => s.submitting.None? && s.updates != [] && (s.updates[0].0 in s.active ==> s.updates[0].0 in s.jobs)
    case Reap(_) => s.submitting.None? && s.updates == []
    case Cancel(id) => s.submitting.None? && id in s.jobs && !Finished(s.jobs[id].status)
    case StopAll => s.submitting.None?
    case Abandon(id) => s.submitting.None? && id in s.active && id in s.jobs
    case Restart => true
  }

  function Next(s: State, step: Step, limit: nat): State
    requires Enabled(s, step, limit)
    requires forall id :: id in s.active || s.submitting == Some(id) ==> id in s.jobs
  {
    match step
    case Intend(id, job) => s.(jobs := s.jobs[id := job], submitting := Some(id))
    case LaunchAsync(id) => Launched(s, id).(workers := s.workers + {id})
    case LaunchRefused(id, began, saved) =>
      var t := if began then Launched(s, id) else InHand(s, id);
      if saved then Record(t, id, Update(Unknown, false), false) else t
    case LaunchHere(id, update, current, saved) =>
      if saved then Record(Launched(s, id), id, update, current) else Launched(s, id)
    case Publish(id, update) => s.(updates := s.updates + [(id, update)])
    case Deliver(current, saved) =>
      var t := s.(updates := s.updates[1..]);
      if saved then Record(t, s.updates[0].0, s.updates[0].1, current) else t
    case Reap(alive) => s.(workers := s.workers * alive)
    case Cancel(id) =>
      s.(jobs := s.jobs[id := s.jobs[id].(status := Cancelling)],
         active := if id in s.active then s.active[id := true] else s.active)
    case StopAll => s.(active := map id | id in s.active :: true)
    case Abandon(id) => Dropped(s, id)
    case Restart =>
      State(map id | id in s.jobs :: Restored(s.jobs[id]), map[], [], {}, None, s.launches)
  }

  // -------------------------------------------------------------- what every job keeps

  /** How one job may look later: the same request; nothing more once finished; and a persisted cancel
      ends as cancelled or unknown. */
  predicate Follows(a: Job, b: Job) {
    && a.run == b.run && a.key == b.key && a.request == b.request
    && (Finished(a.status) ==> a == b)
    && (a.status == Cancelling ==> b.status in {Cancelling, Cancelled, Unknown})
  }

  ghost predicate Later(s: State, t: State) {
    forall id :: id in s.jobs ==> id in t.jobs && Follows(s.jobs[id], t.jobs[id])
  }

  /** A job in hand is undecided and was launched; one being submitted was not. */
  predicate HandsOk(s: State) {
    && (forall id :: id in s.active ==> id in s.jobs && !Finished(s.jobs[id].status)
                                        && (s.jobs[id].status == Cancelling ==> s.active[id]))
    && (s.submitting.Some? ==> s.submitting.value in s.jobs && s.submitting.value !in s.active
                               && s.jobs[s.submitting.value].status == Running
                               && LaunchesOf(s, s.submitting.value) == 0)
    && s.workers <= s.jobs.Keys
  }

  predicate LaunchesOk(s: State) {
    forall id :: id in s.launches ==> id in s.jobs && s.launches[id] <= 1
  }

  ghost predicate KeysOk(jobs: map<nat, Job>) {
    forall a, b :: a in jobs && b in jobs && a != b && jobs[a].run == jobs[b].run && jobs[a].key.Some?
                   ==> jobs[a].key != jobs[b].key
  }

  ghost predicate RoomOk(jobs: map<nat, Job>) {
    forall run :: |JobsOf(jobs, run)| <= MAX_JOBS
  }

  ghost predicate StateOk(s: State, limit: nat) {
    && HandsOk(s) && LaunchesOk(s) && KeysOk(s.jobs) && RoomOk(s.jobs)
    && |s.active| + (if s.submitting.Some? then 1 else 0) <= limit
  }

  // -------------------------------------------------------------- one step

  /** Only statuses changed, so keys, rooms and the job table are the same. */
  lemma SameRequests(before: map<nat, Job>, after: map<nat, Job>)
    requires after.Keys == before.Keys && KeysOk(before) && RoomOk(before)
    requires forall id :: id in before ==> after[id].run == before[id].run && after[id].key == before[id].key
    ensures KeysOk(after) && RoomOk(after)
  {
    forall run ensures |JobsOf(after, run)| <= MAX_JOBS {
      assert JobsOf(after, run) == JobsOf(before, run);
    }
  }

  lemma OneFewer<V>(m: map<nat, V>, id: nat)
    requires id in m
    ensures |m - {id}| == |m| - 1
  {
    assert (m - {id}).Keys == m.Keys - {id};
    assert |(m - {id}).Keys| == |m - {id}| && |m.Keys| == |m|;
  }

  lemma OneMore<V>(m: map<nat, V>, id: nat, v: V)
    requires id !in m
    ensures |m[id := v]| == |m| + 1
  {
    assert m[id := v].Keys == m.Keys + {id};
    assert |m[id := v].Keys| == |m[id := v]| && |m.Keys| == |m|;
  }

  lemma RecordKeeps(s: State, id: nat, u: Update, current: bool, limit: nat)
    requires StateOk(s, limit) && s.submitting.None?
    ensures StateOk(Record(s, id, u, current), limit) && Later(s, Record(s, id, u, current))
    ensures Record(s, id, u, current).submitting.None?
  {
    if id in s.active {
      SameRequests(s.jobs, Record(s, id, u, current).jobs);
      OneFewer(s.active, id);
    }
  }

  lemma RoomGrows(jobs: map<nat, Job>, id: nat, job: Job)
    requires RoomOk(jobs) && id !in jobs && |JobsOf(jobs, job.run)| < MAX_JOBS
    ensures RoomOk(jobs[id := job])
  {
    var after := jobs[id := job];
    forall run: nat ensures |JobsOf(after, run)| <= MAX_JOBS {
      assert JobsOf(after, run)
          == if run == job.run then JobsOf(jobs, run) + {id} else JobsOf(jobs, run);
    }
  }

  lemma KeysGrow(jobs: map<nat, Job>, id: nat, job: Job)
    requires KeysOk(jobs) && id !in jobs && !KeyTaken(jobs, job.run, job.key)
    ensures KeysOk(jobs[id := job])
  {
  }

  lemma IntendKeeps(s: State, id: nat, job: Job, limit: nat)
    requires StateOk(s, limit) && Enabled(s, Intend(id, job), limit)
    ensures StateOk(Next(s, Intend(id, job), limit), limit) && Later(s, Next(s, Intend(id, job), limit))
  {
    RoomGrows(s.jobs, id, job);
    KeysGrow(s.jobs, id, job);
  }

  lemma LaunchedKeeps(s: State, id: nat, limit: nat)
    requires StateOk(s, limit) && s.submitting == Some(id)
    ensures StateOk(Launched(s, id), limit) && Later(s, Launched(s, id))
    ensures StateOk(InHand(s, id), limit) && Later(s, InHand(s, id))
  {
    OneMore(s.active, id, false);
  }

  lemma LaunchKeeps(s: State, step: Step, limit: nat)
    requires StateOk(s, limit) && Enabled(s, step, limit)
    requires step.LaunchAsync? || step.LaunchRefused? || step.LaunchHere?
    ensures StateOk(Next(s, step, limit), limit) && Later(s, Next(s, step, limit))
  {
    LaunchedKeeps(s, step.id, limit);
    match step
    case LaunchAsync(id) =>
    case LaunchRefused(id, began, saved) =>
      RecordKeeps(if began then Launched(s, id) else InHand(s, id), id, Update(Unknown, false), false, limit);
    case LaunchHere(id, update, current, saved) =>
      RecordKeeps(Launched(s, id), id, update, current, limit);
  }

  lemma DropKeeps(s: State, id: nat, limit: nat)
    requires StateOk(s, limit) && s.submitting.None? && id in s.active
    ensures StateOk(Dropped(s, id), limit) && Later(s, Dropped(s, id))
  {
    SameRequests(s.jobs, Dropped(s, id).jobs);
    OneFewer(s.active, id);
  }

  lemma CancelKeeps(s: State, id: nat, limit: nat)
    requires StateOk(s, limit) && Enabled(s, Cancel(id), limit)
    ensures StateOk(Next(s, Cancel(id), limit), limit) && Later(s, Next(s, Cancel(id), limit))
  {
    SameRequests(s.jobs, Next(s, Cancel(id), limit).jobs);
    if id in s.active {
      SameSize(s.active, s.active[id := true]);
    }
  }

  lemma SameSize<V>(a: map<nat, V>, b: map<nat, V>)
    requires a.Keys == b.Keys
    ensures |a| == |b|
  {
    assert |a.Keys| == |a| && |b.Keys| == |b|;
  }

  lemma StopKeeps(s: State, limit: nat)
    requires StateOk(s, limit) && Enabled(s, StopAll, limit)
    ensures StateOk(Next(s, StopAll, limit), limit) && Later(s, Next(s, StopAll, limit))
  {
    SameSize(s.active, Next(s, StopAll, limit).active);
  }

  lemma RestartKeeps(s: State, limit: nat)
    requires StateOk(s, limit)
    ensures StateOk(Next(s, Restart, limit), limit) && Later(s, Next(s, Restart, limit))
  {
    SameRequests(s.jobs, Next(s, Restart, limit).jobs);
  }

  /** Every step keeps the invariant and lets every job only move on. */
  lemma NextKeeps(s: State, step: Step, limit: nat)
    requires StateOk(s, limit) && Enabled(s, step, limit)
    ensures StateOk(Next(s, step, limit), limit) && Later(s, Next(s, step, limit))
  {
    match step
    case Intend(id, job) => IntendKeeps(s, id, job, limit);
    case LaunchAsync(_) => LaunchKeeps(s, step, limit);
    case LaunchRefused(_, _, _) => LaunchKeeps(s, step, limit);
    case LaunchHere(_, _, _, _) => LaunchKeeps(s, step, limit);
    case Cancel(id) => CancelKeeps(s, id, limit);
    case Abandon(id) => DropKeeps(s, id, limit);
    case Deliver(current, saved) =>
      RecordKeeps(s.(updates := s.updates[1..]), s.updates[0].0, s.updates[0].1, current, limit);
    case StopAll => StopKeeps(s, limit);
    case Restart => RestartKeeps(s, limit);
    case Publish(_, _) => assert Next(s, step, limit).jobs == s.jobs;
    case Reap(_) => assert Next(s, step, limit).jobs == s.jobs;
  }

  // -------------------------------------------------------------- over whole histories

  ghost predicate Possible(s: State, steps: seq<Step>, limit: nat)
    decreases |steps|
  {
    && (forall id :: id in s.active || s.submitting == Some(id) ==> id in s.jobs)
    && (steps == [] || (Enabled(s, steps[0], limit) && Possible(Next(s, steps[0], limit), steps[1..], limit)))
  }

  ghost function Execute(s: State, steps: seq<Step>, limit: nat): State
    requires Possible(s, steps, limit)
    decreases |steps|
  {
    if steps == [] then s else Execute(Next(s, steps[0], limit), steps[1..], limit)
  }

  /** The history `steps` leads from `s` to `t`. */
  ghost predicate Reached(s: State, steps: seq<Step>, t: State, limit: nat) {
    Possible(s, steps, limit) && Execute(s, steps, limit) == t
  }

  /** One more step at the end of a history. */
  lemma {:induction false} ReachedThen(s: State, steps: seq<Step>, t: State, step: Step, limit: nat)
    requires Reached(s, steps, t, limit) && StateOk(t, limit) && Enabled(t, step, limit)
    ensures StateOk(Next(t, step, limit), limit) && Reached(s, steps + [step], Next(t, step, limit), limit)
    decreases |steps|
  {
    if steps == [] {
      NextKeeps(t, step, limit);
      assert ([] + [step])[1..] == [];
    } else {
      assert (steps + [step])[1..] == steps[1..] + [step];
      ReachedThen(Next(s, steps[0], limit), steps[1..], t, step, limit);
    }
  }

  lemma FollowsOn(a: State, b: State, c: State)
    requires Later(a, b) && Later(b, c)
    ensures Later(a, c)
  {
    forall id | id in a.jobs ensures id in c.jobs && Follows(a.jobs[id], c.jobs[id]) {
      assert Follows(a.jobs[id], b.jobs[id]) && Follows(b.jobs[id], c.jobs[id]);
    }
  }

  /** Over every history, restarts included: a finished job never changes again, a persisted cancel never
      turns into a completed check, and no job is started twice. */
  lemma {:induction false} ExecuteKeeps(s: State, steps: seq<Step>, limit: nat)
    requires StateOk(s, limit) && Possible(s, steps, limit)
    ensures StateOk(Execute(s, steps, limit), limit) && Later(s, Execute(s, steps, limit))
    decreases |steps|
  {
    if steps == [] {
      assert Later(s, s);
    } else {
      var t := Next(s, steps[0], limit);
      NextKeeps(s, steps[0], limit);
      ExecuteKeeps(t, steps[1..], limit);
      FollowsOn(s, t, Execute(t, steps[1..], limit));
    }
  }

  lemma CancelWins(s: State, steps: seq<Step>, limit: nat, id: nat)
    requires StateOk(s, limit) && Possible(s, steps, limit)
    requires id in s.jobs && s.jobs[id].status == Cancelling
    ensures id in Execute(s, steps, limit).jobs
    ensures Execute(s, steps, limit).jobs[id].status in {Cancelling, Cancelled, Unknown}
  {
    ExecuteKeeps(s, steps, limit);
    assert Follows(s.jobs[id], Execute(s, steps, limit).jobs[id]);
  }

  lemma FinishedForGood(s: State, steps: seq<Step>, limit: nat, id: nat)
    requires StateOk(s, limit) && Possible(s, steps, limit)
    requires id in s.jobs && Finished(s.jobs[id].status)
    ensures id in Execute(s, steps, limit).jobs && Execute(s, steps, limit).jobs[id] == s.jobs[id]
  {
    ExecuteKeeps(s, steps, limit);
    assert Follows(s.jobs[id], Execute(s, steps, limit).jobs[id]);
  }

  /** A job that is stored and not the one being submitted is never started from then on; after a restart
      that is every job. */
  lemma {:induction false} NeverStartedAgain(s: State, steps: seq<Step>, limit: nat, id: nat)
    requires StateOk(s, limit) && Possible(s, steps, limit)
    requires id in s.jobs && s.submitting != Some(id)
    ensures LaunchesOf(Execute(s, steps, limit), id) == LaunchesOf(s, id)
    decreases |steps|
  {
    if steps != [] {
      NextKeeps(s, steps[0], limit);
      StepStartsOnly(s, steps[0], limit, id);
      NeverStartedAgain(Next(s, steps[0], limit), steps[1..], limit, id);
    }
  }

  /** Only the job being submitted can be started, and only a new job can become that one. */
  lemma RecordStartsNothing(s: State, id: nat, u: Update, current: bool)
    requires id in s.active ==> id in s.jobs
    ensures var t := Record(s, id, u, current); t.launches == s.launches && t.submitting == s.submitting
  {
  }

  lemma StepStartsOnly(s: State, step: Step, limit: nat, id: nat)
    requires forall k :: k in s.active || s.submitting == Some(k) ==> k in s.jobs
    requires Enabled(s, step, limit) && id in s.jobs && s.submitting != Some(id)
    ensures LaunchesOf(Next(s, step, limit), id) == LaunchesOf(s, id)
    ensures Next(s, step, limit).submitting != Some(id)
  {
    match step
    case Deliver(current, saved) =>
      RecordStartsNothing(s.(updates := s.updates[1..]), s.updates[0].0, s.updates[0].1, current);
    case LaunchHere(other, update, current, saved) =>
      RecordStartsNothing(Launched(s, other), other, update, current);
    case LaunchRefused(other, began, saved) =>
      RecordStartsNothing(if began then Launched(s, other) else InHand(s, other), other, Update(Unknown, false), false);
    case _ =>
  }

  lemma RestartStartsNothing(s: State, steps: seq<Step>, limit: nat, id: nat)
    requires StateOk(s, limit) && Possible(Next(s, Restart, limit), steps, limit) && id in s.jobs
    ensures LaunchesOf(Execute(Next(s, Restart, limit), steps, limit), id) == LaunchesOf(s, id)
    ensures Finished(Next(s, Restart, limit).jobs[id].status)
  {
    NextKeeps(s, Restart, limit);
    NeverStartedAgain(Next(s, Restart, limit), steps, limit, id);
  }

  /** A step makes a job completed exactly when the core records a completed report for it while nobody
      asked it to stop and the target and the check's configuration are still the ones it was bound to. */
  predicate Completing(s: State, step: Step, id: nat)
    requires id in s.jobs
  {
    || (step.Deliver? && step.saved && s.updates != [] && s.updates[0].0 == id && id in s.active && !s.active[id]
        && s.jobs[id].status == Running && s.updates[0].1.status == Completed && step.current)
    || (step.LaunchHere? && step.id == id && step.update.status == Completed && step.current && step.saved)
  }

  lemma CompletedExactly(s: State, step: Step, limit: nat, id: nat)
    requires StateOk(s, limit) && Enabled(s, step, limit) && id in s.jobs && !Finished(s.jobs[id].status)
    ensures id in Next(s, step, limit).jobs
    ensures Next(s, step, limit).jobs[id].status == Completed <==> Completing(s, step, id)
  {
    match step
    case Deliver(current, saved) =>
      RecordCompletes(s.(updates := s.updates[1..]), s.updates[0].0, s.updates[0].1, current, id);
    case LaunchHere(other, update, current, saved) =>
      RecordCompletes(Launched(s, other), other, update, current, id);
    case LaunchRefused(other, began, saved) =>
      RecordCompletes(if began then Launched(s, other) else InHand(s, other), other, Update(Unknown, false), false, id);
    case Abandon(other) =>
    case Cancel(other) =>
    case _ =>
  }

  lemma RecordCompletes(s: State, r: nat, u: Update, current: bool, id: nat)
    requires r in s.active ==> r in s.jobs
    requires id in s.jobs && !Finished(s.jobs[id].status)
    ensures id in Record(s, r, u, current).jobs
    ensures Record(s, r, u, current).jobs[id].status == Completed
        <==> r == id && id in s.active && !s.active[id] && s.jobs[id].status == Running
             && u.status == Completed && current
  {
  }

  // -------------------------------------------------------------- what a caller is shown

  /** `view`: a completed report whose target or configuration moved on is shown as stale. */
  function View(job: Job, current: bool): Job {
    if job.status == Completed && !current then job.(status := StaleResult, passed := None) else job
  }

  /** Somewhere along the history a step completes the job. */
  ghost predicate CompletesAlong(s: State, steps: seq<Step>, limit: nat, id: nat)
    requires Possible(s, steps, limit)
    decreases |steps|
  {
    steps != [] && ((id in s.jobs && Completing(s, steps[0], id))
                    || CompletesAlong(Next(s, steps[0], limit), steps[1..], limit, id))
  }

  lemma StillUndecided(s: State, step: Step, limit: nat, id: nat)
    requires StateOk(s, limit) && Enabled(s, step, limit) && id !in s.jobs
    ensures id in Next(s, step, limit).jobs ==> !Finished(Next(s, step, limit).jobs[id].status)
  {
  }

  /** A finished job is not completed again. */
  lemma {:induction false} FinishedNotCompleted(s: State, steps: seq<Step>, limit: nat, id: nat)
    requires StateOk(s, limit) && Possible(s, steps, limit) && id in s.jobs && Finished(s.jobs[id].status)
    ensures !CompletesAlong(s, steps, limit, id)
    decreases |steps|
  {
    if steps != [] {
      assert !Completing(s, steps[0], id);
      NextKeeps(s, steps[0], limit);
      assert Follows(s.jobs[id], Next(s, steps[0], limit).jobs[id]);
      FinishedNotCompleted(Next(s, steps[0], limit), steps[1..], limit, id);
    }
  }

  predicate CompletedIn(s: State, id: nat) {
    id in s.jobs && s.jobs[id].status == Completed
  }

  lemma {:induction false} CompletedAlong(s: State, steps: seq<Step>, limit: nat, id: nat)
    requires StateOk(s, limit) && Possible(s, steps, limit)
    requires id in s.jobs ==> !Finished(s.jobs[id].status)
    ensures CompletedIn(Execute(s, steps, limit), id) <==> CompletesAlong(s, steps, limit, id)
    decreases |steps|
  {
    if steps != [] {
      var t := Next(s, steps[0], limit);
      NextKeeps(s, steps[0], limit);
      if id in s.jobs {
        CompletedExactly(s, steps[0], limit, id);
      } else {
        StillUndecided(s, steps[0], limit, id);
      }
      if id in t.jobs && Finished(t.jobs[id].status) {
        FinishedForGood(t, steps[1..], limit, id);
        FinishedNotCompleted(t, steps[1..], limit, id);
      } else {
        CompletedAlong(t, steps[1..], limit, id);
      }
    }
  }

  /** Over every history from before a job's end on, restarts included, a caller is shown a completed check
      exactly when the core recorded a completed report for it, unstopped and on current evidence, and the
      evidence still applies when it is shown. */
  lemma ShownCompletedExactly(s: State, steps: seq<Step>, limit: nat, id: nat, current: bool)
    requires StateOk(s, limit) && Possible(s, steps, limit)
    requires id in s.jobs ==> !Finished(s.jobs[id].status)
    ensures (id in Execute(s, steps, limit).jobs && View(Execute(s, steps, limit).jobs[id], current).status == Completed)
        <==> (current && CompletesAlong(s, steps, limit, id))
  {
    CompletedAlong(s, steps, limit, id);
  }
}
