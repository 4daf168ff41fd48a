/** What each call of the check runtime does as a whole: the drain it begins with, the job it stores and
    starts, the job it cancels, and what is left when it closes. Every call is a history of `CheckJobs`
    steps, so what holds of histories holds of calls. */
module CheckCalls {
  import opened Wrappers
  import opened CheckJobs

  /** Per delivered update: whether its evidence still applies, and whether its write succeeds. */
  datatype Answer = Answer(current: bool, saved: bool)

  datatype Outcome = Outcome(s: State, failed: bool)

  /** How a start goes: on a worker, on a worker that raised, or in place. */
  datatype How =
    | Background
    | BackgroundFails(began: bool, saved: bool)
    | InPlace(update: Update, current: bool, saved: bool)
  {
    function Step(id: nat): Step {
      match this
      case Background => LaunchAsync(id)
      case BackgroundFails(began, saved) => LaunchRefused(id, began, saved)
      case InPlace(update, current, saved) => LaunchHere(id, update, current, saved)
    }
  }

  predicate Handy(s: State) {
    forall id :: id in s.active ==> id in s.jobs
  }

  predicate HeadFails(s: State, a: Answer)
    requires s.updates != []
  {
    s.updates[0].0 in s.active && !a.saved
  }

  function DeliverHead(s: State, a: Answer): (t: State)
    requires s.updates != [] && Handy(s)
    ensures Handy(t) && t.updates == s.updates[1..] && t.jobs.Keys == s.jobs.Keys && t.submitting == s.submitting
  {
    var t := s.(updates := s.updates[1..]);
    if a.saved then Record(t, s.updates[0].0, s.updates[0].1, a.current) else t
  }

  /** The executor's drain: updates in order, up to and including the first whose write fails. */
  function Delivered(s: State, answers: seq<Answer>): (o: Outcome)
    requires |s.updates| <= |answers| && Handy(s)
    ensures Handy(o.s) && o.s.jobs.Keys == s.jobs.Keys && o.s.submitting == s.submitting && (!o.failed ==> o.s.updates == [])
    decreases |s.updates|
  {
    if s.updates == [] then Outcome(s, false)
    else if HeadFails(s, answers[0]) then Outcome(DeliverHead(s, answers[0]), true)
    else Delivered(DeliverHead(s, answers[0]), answers[1..])
  }

  /** The jobs in `lost` are unknown and no longer in hand. */
  function Without(s: State, lost: set<nat>): State {
    s.(jobs := map id | id in s.jobs :: if id in lost then Lost(s.jobs[id]) else s.jobs[id], active := s.active - lost)
  }

  /** The tail of `drain`: a job in hand whose worker is gone is unknown. */
  function Swept(s: State): State {
    Without(s, s.active.Keys - s.workers)
  }

  /** `drain`. */
  function Drained(s: State, answers: seq<Answer>, alive: set<nat>): (o: Outcome)
    requires |s.updates| <= |answers| && Handy(s)
    ensures Handy(o.s) && o.s.jobs.Keys == s.jobs.Keys && o.s.submitting == s.submitting
  {
    var d := Delivered(s, answers);
    if d.failed then d else Outcome(Swept(d.s.(workers := d.s.workers * alive)), false)
  }

  /** The state `get` drains from: a cancel of an undecided job is stored first. */
  function Asked(s: State, id: nat, cancel: bool): (t: State)
    requires id in s.jobs
    ensures t.jobs.Keys == s.jobs.Keys && t.updates == s.updates && (Handy(s) ==> Handy(t))
  {
    if cancel && !Finished(s.jobs[id].status) then
      s.(jobs := s.jobs[id := s.jobs[id].(status := Cancelling)],
         active := if id in s.active then s.active[id := true] else s.active)
    else s
  }

  /** A stored and started job. */
  function Placed(s: State, id: nat, job: Job, how: How, limit: nat): State
    requires Enabled(s, Intend(id, job), limit) && Handy(s)
  {
    Next(Next(s, Intend(id, job), limit), how.Step(id), limit)
  }

  /** What the caller of a started job is told. */
  function PlacedAnswer(job: Job, how: How): Result<Job> {
    if how.BackgroundFails? || (how.InPlace? && job.status != Completed && job.status != Cancelled) then Err(UnknownRemote)
    else Ok(job)
  }

  predicate Matches(jobs: map<nat, Job>, k: nat, job: Job) {
    k in jobs && jobs[k].run == job.run && jobs[k].key == job.key && job.key.Some?
  }

  /** What the stored table answers before anything starts: a known key from its job, or a refusal. `Ok(None)`
      says that the intent is stored. */
  ghost predicate Intended(s: State, answer: Result<Option<Job>>, job: Job, stored: bool, current: bool, limit: nat) {
    if KeyTaken(s.jobs, job.run, job.key) then
      exists k :: Matches(s.jobs, k, job)
        && answer == if s.jobs[k].request == job.request then Ok(Some(View(s.jobs[k], current)))
                     else Err(IdempotencyConflict)
    else if |JobsOf(s.jobs, job.run)| >= MAX_JOBS || |s.active| >= limit then answer == Err(RateLimited)
    else if !stored then answer == Err(InvalidState)
    else answer == Ok(None)
  }

  /** `submit` once the drain is done: only a stored intent is started, as job `id`. */
  ghost predicate Accepts(s: State, t: State, answer: Result<Job>, id: nat, job: Job, how: How, stored: bool,
                          current: bool, limit: nat)
    requires Handy(s) && job.status == Running && job.passed.None? && s.submitting.None? && id !in s.jobs
  {
    if Enabled(s, Intend(id, job), limit) && stored then
      t == Placed(s, id, job, how, limit) && id in t.jobs && answer == PlacedAnswer(t.jobs[id], how)
    else
      t == s && exists known :: Intended(s, known, job, stored, current, limit) && answer == Told(known)
  }

  /** What the caller is told when nothing is started. */
  function Told(known: Result<Option<Job>>): Result<Job> {
    if known.Err? then Err(known.error)
    else if known.value.Some? then Ok(known.value.value)
    else Err(InvalidState)
  }

  /** `submit`: drain first, refuse a background job that has no executor or key, then accept. */
  ghost predicate Submitted(s: State, t: State, answer: Result<Job>, id: nat, job: Job, how: How, resident: bool,
                            stored: bool, current: bool, answers: seq<Answer>, alive: set<nat>, limit: nat)
    requires |s.updates| <= |answers| && Handy(s) && job.status == Running && job.passed.None? && s.submitting.None?
    requires id !in s.jobs
  {
    var d := Drained(s, answers, alive);
    if d.failed then t == d.s && answer == Err(InvalidState)
    else if !how.InPlace? && (!resident || job.key.None?) then t == d.s && answer == Err(InvalidRequest)
    else Accepts(d.s, t, answer, id, job, how, stored, current, limit)
  }

  /** `get`: an unknown id and a cancel that cannot be stored are refused at once; otherwise the job is shown
      as it is after the drain. */
  ghost predicate Got(s: State, t: State, view: Result<Job>, id: nat, cancel: bool, saved: bool, answers: seq<Answer>,
                      alive: set<nat>, current: bool)
    requires |s.updates| <= |answers| && Handy(s)
  {
    if id !in s.jobs then t == s && view == Err(NotFound)
    else if cancel && !Finished(s.jobs[id].status) && !saved then t == s && view == Err(InvalidState)
    else
      var d := Drained(Asked(s, id, cancel), answers, alive);
      t == d.s && view == if d.failed then Err(InvalidState) else Ok(View(d.s.jobs[id], current))
  }

  /** Every job in hand is told to stop. */
  function Stopped(s: State): State {
    s.(active := map id | id in s.active :: true)
  }

  /** `close`: stop, drain, and give up what is still in hand. */
  function Shut(s: State, answers: seq<Answer>, alive: set<nat>): Outcome
    requires |s.updates| <= |answers| && Handy(s)
  {
    var d := Drained(Stopped(s), answers, alive);
    if d.failed then d else Outcome(Without(d.s, d.s.active.Keys), false)
  }

  // -------------------------------------------------------------- calls are histories

  /** A history from `s`, which keeps the invariant, leads to `t`. */
  ghost predicate Leads(s: State, steps: seq<Step>, t: State, limit: nat) {
    Reached(s, steps, t, limit) && StateOk(t, limit)
  }

  lemma LeadsOn(s: State, steps: seq<Step>, t: State, step: Step, limit: nat) returns (more: seq<Step>)
    requires Leads(s, steps, t, limit) && Enabled(t, step, limit)
    ensures Leads(s, more, Next(t, step, limit), limit)
  {
    ReachedThen(s, steps, t, step, limit);
    more := steps + [step];
  }

  lemma DeliveredRuns(s: State, before: seq<Step>, t: State, answers: seq<Answer>, limit: nat) returns (steps: seq<Step>)
    requires Leads(s, before, t, limit) && t.submitting.None? && |t.updates| <= |answers|
    ensures Handy(t) && Leads(s, steps, Delivered(t, answers).s, limit) && Delivered(t, answers).s.submitting.None?
    decreases |t.updates|
  {
    steps := before;
    if t.updates != [] {
      var a := answers[0];
      steps := LeadsOn(s, before, t, Deliver(a.current, a.saved), limit);
      assert Next(t, Deliver(a.current, a.saved), limit) == DeliverHead(t, a);
      if !HeadFails(t, a) {
        steps := DeliveredRuns(s, steps, DeliverHead(t, a), answers[1..], limit);
      }
    }
  }

  lemma WithoutOne(s: State, lost: set<nat>, id: nat)
    requires id in lost && lost <= s.active.Keys && Handy(s)
    ensures Without(s, lost) == Without(Dropped(s, id), lost - {id})
  {
    var t := Dropped(s, id);
    assert t.active - (lost - {id}) == s.active - lost;
    forall k | k in s.jobs ensures Without(s, lost).jobs[k] == Without(t, lost - {id}).jobs[k] {
    }
  }

  lemma WithoutNone(s: State)
    ensures Without(s, {}) == s
  {
    assert s.active - {} == s.active;
  }

  /** Jobs without a worker are given up one by one, in any order. */
  lemma LostRuns(s: State, before: seq<Step>, t: State, lost: set<nat>, limit: nat) returns (steps: seq<Step>)
    requires Leads(s, before, t, limit) && t.submitting.None? && lost <= t.active.Keys
    ensures Leads(s, steps, Without(t, lost), limit)
    decreases lost
  {
    if lost == {} {
      WithoutNone(t);
      steps := before;
    } else {
      var id :| id in lost;
      assert id in t.active && id in t.jobs;
      steps := LeadsOn(s, before, t, Abandon(id), limit);
      WithoutOne(t, lost, id);
      steps := LostRuns(s, steps, Dropped(t, id), lost - {id}, limit);
    }
  }

  lemma DrainRuns(s: State, before: seq<Step>, t: State, answers: seq<Answer>, alive: set<nat>, limit: nat)
    returns (steps: seq<Step>)
    requires Leads(s, before, t, limit) && t.submitting.None? && |t.updates| <= |answers|
    ensures Handy(t) && Leads(s, steps, Drained(t, answers, alive).s, limit)
    ensures Drained(t, answers, alive).s.submitting.None?
  {
    steps := DeliveredRuns(s, before, t, answers, limit);
    var d := Delivered(t, answers);
    if !d.failed {
      steps := LeadsOn(s, steps, d.s, Reap(alive), limit);
      var reaped := d.s.(workers := d.s.workers * alive);
      steps := LostRuns(s, steps, reaped, reaped.active.Keys - reaped.workers, limit);
    }
  }

  lemma Begins(s: State, limit: nat)
    requires StateOk(s, limit)
    ensures Leads(s, [], s, limit) && Handy(s)
  {
  }

  lemma GetRuns(s: State, id: nat, cancel: bool, answers: seq<Answer>, alive: set<nat>, limit: nat)
    returns (steps: seq<Step>)
    requires StateOk(s, limit) && s.submitting.None? && id in s.jobs && |s.updates| <= |answers|
    ensures Handy(Asked(s, id, cancel)) && Leads(s, steps, Drained(Asked(s, id, cancel), answers, alive).s, limit)
  {
    Begins(s, limit);
    steps := [];
    if cancel && !Finished(s.jobs[id].status) {
      steps := LeadsOn(s, steps, s, Cancel(id), limit);
    }
    steps := DrainRuns(s, steps, Asked(s, id, cancel), answers, alive, limit);
  }

  lemma PlaceRuns(s: State, before: seq<Step>, t: State, id: nat, job: Job, how: How, limit: nat)
    returns (steps: seq<Step>)
    requires Leads(s, before, t, limit) && Handy(t) && Enabled(t, Intend(id, job), limit)
    ensures Leads(s, steps, Placed(t, id, job, how, limit), limit)
  {
    steps := LeadsOn(s, before, t, Intend(id, job), limit);
    steps := LeadsOn(s, steps, Next(t, Intend(id, job), limit), how.Step(id), limit);
  }

  /** Whatever `submit` answers, it took steps of the protocol, so no job is started without its stored intent
      and none twice. */
  lemma SubmitRuns(s: State, t: State, answer: Result<Job>, id: nat, job: Job, how: How, resident: bool, stored: bool,
                   current: bool, answers: seq<Answer>, alive: set<nat>, limit: nat)
    returns (steps: seq<Step>)
    requires StateOk(s, limit) && s.submitting.None? && |s.updates| <= |answers| && Handy(s)
    requires job.status == Running && job.passed.None? && id !in s.jobs
    requires Submitted(s, t, answer, id, job, how, resident, stored, current, answers, alive, limit)
    ensures Leads(s, steps, t, limit)
  {
    Begins(s, limit);
    steps := DrainRuns(s, [], s, answers, alive, limit);
    var d := Drained(s, answers, alive).s;
    if t != d {
      steps := PlaceRuns(s, steps, d, id, job, how, limit);
    }
  }

  lemma ShutRuns(s: State, answers: seq<Answer>, alive: set<nat>, limit: nat) returns (steps: seq<Step>)
    requires StateOk(s, limit) && s.submitting.None? && |s.updates| <= |answers|
    ensures Handy(s) && Leads(s, steps, Shut(s, answers, alive).s, limit)
  {
    Begins(s, limit);
    steps := LeadsOn(s, [], s, StopAll, limit);
    steps := DrainRuns(s, steps, Stopped(s), answers, alive, limit);
    var d := Drained(Stopped(s), answers, alive);
    if !d.failed {
      steps := LostRuns(s, steps, d.s, d.s.active.Keys, limit);
    }
  }

  // -------------------------------------------------------------- what the calls promise

  lemma AskedKeeps(s: State, id: nat, limit: nat)
    requires StateOk(s, limit) && s.submitting.None? && id in s.jobs && !Finished(s.jobs[id].status)
    ensures StateOk(Asked(s, id, true), limit) && Asked(s, id, true).jobs[id].status == Cancelling
  {
    CancelKeeps(s, id, limit);
  }

  lemma DrainKeepsCancel(s: State, id: nat, answers: seq<Answer>, alive: set<nat>, limit: nat)
    requires StateOk(s, limit) && s.submitting.None? && |s.updates| <= |answers|
    requires id in s.jobs && s.jobs[id].status == Cancelling
    ensures Handy(s) && Drained(s, answers, alive).s.jobs[id].status in {Cancelling, Cancelled, Unknown}
  {
    Begins(s, limit);
    var steps := DrainRuns(s, [], s, answers, alive, limit);
    CancelWins(s, steps, limit, id);
  }

  /** The caller of a cancel that is answered never sees the check complete, unless it had before. */
  lemma CancelAnswered(s: State, t: State, view: Result<Job>, id: nat, answers: seq<Answer>, alive: set<nat>,
                       current: bool, limit: nat)
    requires StateOk(s, limit) && s.submitting.None? && |s.updates| <= |answers| && Handy(s)
    requires Got(s, t, view, id, true, true, answers, alive, current)
    requires view.Ok? && !Finished(s.jobs[id].status)
    ensures view.value.status in {Cancelling, Cancelled, Unknown}
  {
    AskedKeeps(s, id, limit);
    DrainKeepsCancel(Asked(s, id, true), id, answers, alive, limit);
  }

  /** Closing leaves no job in hand, and each job that was undecided is cancelled or unknown. */
  lemma ShutDecides(s: State, answers: seq<Answer>, alive: set<nat>, limit: nat, id: nat)
    requires StateOk(s, limit) && s.submitting.None? && |s.updates| <= |answers| && id in s.active
    ensures Handy(s)
    ensures var o := Shut(s, answers, alive);
            !o.failed ==> o.s.active == map[] && id in o.s.jobs && o.s.jobs[id].status in {Cancelled, Unknown}
  {
    Begins(s, limit);
    StoppedDelivers(Stopped(s), answers, id);
  }

  /** While every job in hand is stopped, a delivered report ends as cancelled. */
  lemma {:induction false} StoppedDelivers(s: State, answers: seq<Answer>, id: nat)
    requires |s.updates| <= |answers| && Handy(s) && id in s.jobs
    requires (forall k :: k in s.active ==> s.active[k])
    requires id in s.active || s.jobs[id].status == Cancelled
    ensures var t := Delivered(s, answers).s;
            && id in t.jobs && (id in t.active || t.jobs[id].status == Cancelled)
    decreases |s.updates|
  {
    if s.updates != [] {
      var t := DeliverHead(s, answers[0]);
      assert id in t.active || t.jobs[id].status == Cancelled;
      if !HeadFails(s, answers[0]) {
        StoppedDelivers(t, answers[1..], id);
      }
    }
  }
}
